/**
 * DockerMethod: the handler behind the `docker` command. A docker task runs in
 * three phases, `<task>Prepare`, `<task>` and `<task>Finished`; each phase is
 * either one of the handler's own tasks (`waitForServices`, `copySSHKeys`,
 * `startRemoteAccess`) or a script from the docker configuration's `tasks`,
 * run by the script interpreter on the docker host's shell.
 *
 * The docker configuration comes from the configuration service, which is not
 * part of this model: it is a parameter (`config`). Two shells take part and
 * are distinct objects: the host's own shell (`hostShell`, used by
 * `waitForServices` and `copySSHKeys`) and the docker configuration's shell
 * (`dockerShell`, used by scripts and by the container inspection).
 */
module DockerMethod {
  import opened Common
  import opened Context
  import opened ShellProvider
  import opened Validation
  import opened Scripts

  const Name := "docker"

  /** `supports` */
  predicate Supports(methodName: string)
  {
    methodName == Name
  }

  // ---------------------------------------------------------------------------
  // Configuration.

  /** `$array[$key][$sub] = $v`: a missing or scalar `$array[$key]` starts out empty. */
  function SetIn(m: map<string, Value>, key: string, sub: string, v: Value): (r: map<string, Value>)
    ensures r.Keys == m.Keys + {key}
    ensures forall k :: k in m && k != key ==> r[k] == m[k]
    ensures r[key] == Dict(DictEntries(Lookup(m, key))[sub := v])
  {
    m[key := Dict(DictEntries(Lookup(m, key))[sub := v])]
  }

  /**
   * The host has an ssh tunnel whose destination is still open, and names its
   * container: the tunnel is to lead to that container.
   */
  predicate TunnelToContainer(host: map<string, Value>)
  {
    var tunnel := Lookup(host, "sshTunnel");
    !Empty(tunnel) && !Empty(Field(Lookup(host, "docker"), "name")) &&
    Empty(Field(tunnel, "destHostFromDockerContainer")) && Empty(Field(tunnel, "destHost"))
  }

  /**
   * `getDefaultConfig` on top of the parent's defaults `parent`: the two
   * executables, and the tunnel's destination when the host leaves it open.
   */
  function DefaultConfig(parent: map<string, Value>, host: map<string, Value>): (r: map<string, Value>)
    ensures "executables" in r
    ensures DictEntries(r["executables"]) ==
              DictEntries(Lookup(parent, "executables"))["supervisorctl" := Str("supervisorctl")]["chmod" := Str("chmod")]
    ensures TunnelToContainer(host) ==>
              r.Keys == parent.Keys + {"executables", "sshTunnel"} &&
              DictEntries(r["sshTunnel"]) ==
                DictEntries(Lookup(parent, "sshTunnel"))["destHostFromDockerContainer" := Field(Lookup(host, "docker"), "name")]
    ensures !TunnelToContainer(host) ==> r.Keys == parent.Keys + {"executables"}
    ensures forall k :: k in parent && k != "executables" && (k != "sshTunnel" || !TunnelToContainer(host)) ==> r[k] == parent[k]
  {
    var config := SetIn(SetIn(parent, "executables", "supervisorctl", Str("supervisorctl")), "executables", "chmod", Str("chmod"));
    if TunnelToContainer(host) then SetIn(config, "sshTunnel", "destHostFromDockerContainer", Field(host["docker"], "name"))
    else config
  }

  /**
   * The defaulting fires once: a host whose tunnel already received the
   * container as destination is not defaulted again.
   */
  lemma TunnelDefaultSettles(host: map<string, Value>, tunnel: map<string, Value>)
    requires TunnelToContainer(host) && tunnel == DictEntries(host["sshTunnel"])
    ensures var name := Field(host["docker"], "name");
            !TunnelToContainer(host["sshTunnel" := Dict(tunnel["destHostFromDockerContainer" := name])])
  {
  }

  const DockerNotArray := "docker configuration needs to be an array"
  const DockerKeys := [("name", "name of the docker-container to inspect"),
                       ("configuration", "name of the docker-configuration to use")]

  /**
   * `validateConfig`: the issues it adds to a bag already holding `prior` (the
   * parent's checks, which are not part of this model, report there first).
   * The keys of `docker` are checked only while the bag is free of errors.
   */
  function ValidateConfig(prior: seq<Issue>, config: map<string, Value>): (r: seq<Issue>)
  {
    var isArray := IsArrayKey(config, "docker", DockerNotArray);
    isArray + (if HasErrors(prior + isArray) then [] else HasKeys(DictEntries(Lookup(config, "docker")), DockerKeys))
  }

  /**
   * The bag ends free of errors iff it was before and `docker` is an array
   * naming the container and the docker configuration; an earlier error
   * suppresses the key checks.
   */
  lemma ValidateConfigErrors(prior: seq<Issue>, config: map<string, Value>)
    ensures !HasErrors(prior + ValidateConfig(prior, config)) <==>
              !HasErrors(prior) && IsSet(config, "docker") && IsArray(config["docker"]) &&
              IsSet(DictEntries(config["docker"]), "name") && IsSet(DictEntries(config["docker"]), "configuration")
    ensures HasErrors(prior) ==> |ValidateConfig(prior, config)| <= 1
  {
    var isArray := IsArrayKey(config, "docker", DockerNotArray);
    var keys := if HasErrors(prior + isArray) then [] else HasKeys(DictEntries(Lookup(config, "docker")), DockerKeys);
    assert ValidateConfig(prior, config) == isArray + keys;
    AppendAssoc(prior, isArray, keys);
    HasErrorsConcat(prior + isArray, keys);
    HasErrorsConcat(prior, isArray);
    assert isArray != [] ==> isArray[0].Error?;
    assert DockerKeys[0].0 == "name" && DockerKeys[1].0 == "configuration";
  }

  // ---------------------------------------------------------------------------
  // Dispatch of one phase (`runTaskImpl`).

  /** The handler's methods a docker task can name; they are the ones `getInternalTasks` lists. */
  const TaskMethods := ["waitForServices", "copySSHKeys", "startRemoteAccess"]

  /** The docker configuration's script for `task`. */
  function TaskScript(config: map<string, Value>, task: string): Value
  {
    Field(Lookup(config, "tasks"), task)
  }

  datatype Target = Method(name: string) | Script(script: Value) | Skip | Missing

  /**
   * What `runTaskImpl` does with `task`: a method of the handler takes
   * precedence over the configuration's tasks; a task the configuration does
   * not define is skipped in a silent phase and missing otherwise.
   */
  function Resolve(config: map<string, Value>, task: string, silent: bool): (r: Target)
    ensures r.Method? <==> InList(task, TaskMethods)
    ensures r.Method? ==> r.name == task
    ensures r.Script? <==> !InList(task, TaskMethods) && !Empty(TaskScript(config, task))
    ensures r.Script? ==> r.script == TaskScript(config, task)
    ensures r.Missing? <==> !silent && !InList(task, TaskMethods) && Empty(TaskScript(config, task))
    ensures silent ==> !r.Missing?
  {
    if InList(task, TaskMethods) then Method(task)
    else if Empty(TaskScript(config, task)) then (if silent then Skip else Missing)
    else Script(TaskScript(config, task))
  }

  /** `$docker_config->get('environment', [])` */
  function Environment(config: map<string, Value>): Value
  {
    VarOr(config, "environment", List([]))
  }

  /** The context variables a docker script runs with. */
  function ScriptVars(vars: map<string, Value>, config: map<string, Value>, script: Value): (r: map<string, Value>)
    ensures r.Keys == vars.Keys + {"scriptData", "variables", "environment", "callbacks", "rootFolder"}
    ensures r["scriptData"] == script
    ensures r["variables"] == Dict(map["dockerHost" := Dict(config)])
    ensures r["environment"] == Environment(config) && r["callbacks"] == List([])
    ensures r["rootFolder"] == Lookup(config, "rootFolder")
    ensures forall k :: k in vars && k !in {"scriptData", "variables", "environment", "callbacks", "rootFolder"} ==> r[k] == vars[k]
  {
    vars["scriptData" := script]["variables" := Dict(map["dockerHost" := Dict(config)])]
        ["environment" := Environment(config)]["callbacks" := List([])]["rootFolder" := Lookup(config, "rootFolder")]
  }

  // ---------------------------------------------------------------------------
  // waitForServices

  const MaxTries := 10
  const StatusCommand := "#!supervisorctl status"
  const SupervisorFailed := "Error running supervisorctl, check the logs"

  /** `trim($line) != ''` */
  predicate NonBlank(line: string)
  {
    Trim(line) != ""
  }

  /** `strpos($line, 'RUNNING')` is truthy: found, and not at position 0. */
  predicate ReportsRunning(line: string)
  {
    var p := IndexOf(line, "RUNNING");
    p.Some? && p.value > 0
  }

  /** The number of services in a `supervisorctl status` output: its non-blank lines. */
  function Services(lines: seq<string>): (n: nat)
    ensures n <= |lines|
  {
    if lines == [] then 0
    else Services(lines[..|lines| - 1]) + (if NonBlank(lines[|lines| - 1]) then 1 else 0)
  }

  /** The number of those services reported running. */
  function Running(lines: seq<string>): (n: nat)
    ensures n <= Services(lines)
  {
    if lines == [] then 0
    else
      var last := lines[|lines| - 1];
      Running(lines[..|lines| - 1]) + (if NonBlank(last) && ReportsRunning(last) then 1 else 0)
  }

  predicate ServicesUp(lines: seq<string>)
  {
    Running(lines) == Services(lines)
  }

  /** The counts agree iff every non-blank line reports `RUNNING`. */
  lemma {:induction false} ServicesUpIff(lines: seq<string>)
    ensures ServicesUp(lines) <==> forall k :: 0 <= k < |lines| && NonBlank(lines[k]) ==> ReportsRunning(lines[k])
    decreases |lines|
  {
    if lines != [] {
      var init := lines[..|lines| - 1];
      ServicesUpIff(init);
      assert forall k :: 0 <= k < |init| ==> init[k] == lines[k];
    }
  }

  /** The `foreach` of `waitForServices`: counts the services and the running ones. */
  method CountServices(lines: seq<string>) returns (services: nat, running: nat)
    ensures services == Services(lines) && running == Running(lines)
  {
    services, running := 0, 0;
    for i := 0 to |lines|
      invariant services == Services(lines[..i]) && running == Running(lines[..i])
    {
      assert lines[..i + 1][..i] == lines[..i];
      if Trim(lines[i]) != "" {
        services := services + 1;
        var p := IndexOf(lines[i], "RUNNING");
        if p.Some? && p.value > 0 {
          running := running + 1;
        }
      }
    }
    assert lines[..|lines|] == lines;
  }

  datatype Waited = Waited(log: seq<Op>, err: Option<Error>)

  /** At most `left` more status queries, from a log `log`. */
  function WaitFrom(answer: Answer, log: seq<Op>, left: nat): Waited
    decreases left
  {
    if left == 0 then Waited(log, None)
    else
      var result := answer(|log|, StatusCommand);
      var next := log + [Ran(StatusCommand)];
      if result.exitCode != 0 then Waited(next, Some(Runtime(SupervisorFailed)))
      else if ServicesUp(result.output) then Waited(next, None)
      else WaitFrom(answer, next, left - 1)
  }

  /** `$hostconfig['executables']['supervisorctl'] === false` */
  predicate SupervisorDisabled(host: map<string, Value>)
  {
    Field(Lookup(host, "executables"), "supervisorctl") == Bool(false)
  }

  /** `waitForServices` on the host's shell. */
  function WaitSpec(answer: Answer, host: map<string, Value>, log: seq<Op>): Waited
  {
    if SupervisorDisabled(host) then Waited(log, None) else WaitFrom(answer, log, MaxTries)
  }

  /** The status query at log position `pos` failed. */
  predicate QueryFails(answer: Answer, pos: nat)
  {
    answer(pos, StatusCommand).exitCode != 0
  }

  /** The status query at log position `pos` worked but found a service down. */
  predicate StillWaiting(answer: Answer, pos: nat)
  {
    answer(pos, StatusCommand).exitCode == 0 && !ServicesUp(answer(pos, StatusCommand).output)
  }

  /** The wait queries the status at most `left` times. */
  lemma {:induction false} WaitLogBounded(answer: Answer, log: seq<Op>, left: nat)
    ensures var out := WaitFrom(answer, log, left);
            exists n :: 0 <= n <= left && out.log == log + RanOps(Repeated(StatusCommand, n))
    decreases left
  {
    var out := WaitFrom(answer, log, left);
    if left == 0 {
      assert out.log == log + RanOps(Repeated(StatusCommand, 0));
    } else {
      var next := log + [Ran(StatusCommand)];
      var result := answer(|log|, StatusCommand);
      if result.exitCode != 0 || ServicesUp(result.output) {
        assert RanOps(Repeated(StatusCommand, 1)) == [Ran(StatusCommand)];
        assert out.log == log + RanOps(Repeated(StatusCommand, 1));
      } else {
        WaitLogBounded(answer, next, left - 1);
        var n :| 0 <= n <= left - 1 && out.log == next + RanOps(Repeated(StatusCommand, n));
        RanOpsCons(StatusCommand, Repeated(StatusCommand, n));
        AppendCons(log, Ran(StatusCommand), RanOps(Repeated(StatusCommand, n)));
        assert out.log == log + RanOps(Repeated(StatusCommand, n + 1));
      }
    }
  }

  /** The wait throws iff a status query fails before any query finds every service running. */
  lemma {:induction false} WaitThrowsIff(answer: Answer, log: seq<Op>, left: nat)
    ensures WaitFrom(answer, log, left).err.Some? <==>
              exists j :: |log| <= j < |log| + left && QueryFails(answer, j) &&
                          forall i :: |log| <= i < j ==> StillWaiting(answer, i)
    decreases left
  {
    if left > 0 {
      var result := answer(|log|, StatusCommand);
      assert QueryFails(answer, |log|) <==> result.exitCode != 0;
      if result.exitCode == 0 && !ServicesUp(result.output) {
        assert StillWaiting(answer, |log|);
        WaitThrowsIff(answer, log + [Ran(StatusCommand)], left - 1);
      } else if result.exitCode == 0 {
        assert !StillWaiting(answer, |log|);
      }
    }
  }

  /** When every status query finds a service down, the wait gives up after `left` queries without throwing. */
  lemma {:induction false} WaitGivesUp(answer: Answer, log: seq<Op>, left: nat)
    requires forall i :: |log| <= i < |log| + left ==> StillWaiting(answer, i)
    ensures WaitFrom(answer, log, left) == Waited(log + RanOps(Repeated(StatusCommand, left)), None)
    decreases left
  {
    if left == 0 {
      assert log + RanOps(Repeated(StatusCommand, 0)) == log;
    } else {
      assert StillWaiting(answer, |log|);
      WaitGivesUp(answer, log + [Ran(StatusCommand)], left - 1);
      RanOpsCons(StatusCommand, Repeated(StatusCommand, left - 1));
      AppendCons(log, Ran(StatusCommand), RanOps(Repeated(StatusCommand, left - 1)));
    }
  }

  /** `waitForServices` */
  method WaitForServices(host: map<string, Value>, shell: Shell) returns (err: Option<Error>)
    modifies shell`log
    ensures Waited(shell.log, err) == WaitSpec(shell.answer, host, old(shell.log))
  {
    if Field(Lookup(host, "executables"), "supervisorctl") == Bool(false) {
      return None;
    }
    var tries := 0;
    while tries < MaxTries
      invariant 0 <= tries <= MaxTries
      invariant WaitFrom(shell.answer, shell.log, MaxTries - tries) == WaitFrom(shell.answer, old(shell.log), MaxTries)
    {
      var result := shell.Run(StatusCommand);
      var services, running := CountServices(result.output);
      if result.exitCode != 0 {
        return Some(Runtime(SupervisorFailed));
      }
      if running == services {
        return None;
      }
      tries := tries + 1;
    }
    err := None;
  }

  // ---------------------------------------------------------------------------
  // copySSHKeys

  /** One entry of the `$files` table: destination, source and permissions. */
  datatype KeyFile = KeyFile(dest: string, source: string, permissions: string)

  const AuthorizedKeys := "~/.ssh/authorized_keys"
  const PrivateKey := "~/.ssh/id_rsa"
  const PublicKey := "~/.ssh/id_rsa.pub"
  const KnownHosts := "~/.ssh/known_hosts"
  const LockSshDir := "#!chmod 700 ~/.ssh"

  /** `if ($file = getSetting($name))`: the setting, when truthy. */
  function KeySetting(settings: Value, name: string): Option<string>
  {
    var v := Field(settings, name);
    if Empty(v) then None else Some(ToStr(v))
  }

  predicate Lists(files: seq<KeyFile>, dest: string)
  {
    exists k :: 0 <= k < |files| && files[k].dest == dest
  }

  /** The `$files` table of `copySSHKeys`, in insertion order: one entry per truthy setting. */
  function KeyFiles(settings: Value): (r: seq<KeyFile>)
    ensures |r| <= 4
  {
    Table(KeySetting(settings, "dockerAuthorizedKeyFile"), KeySetting(settings, "dockerKeyFile"),
          KeySetting(settings, "dockerKnownHostsFile"))
  }

  /** The table for the three settings, each read as a file name when truthy. */
  function Table(authorized: Option<string>, key: Option<string>, known: Option<string>): (r: seq<KeyFile>)
    ensures |r| <= 4
  {
    (if authorized.Some? then [AuthorizedRow(authorized.value)] else []) +
    (if key.Some? then [PrivateRow(key.value), PublicRow(key.value)] else []) +
    (if known.Some? then [KnownHostsRow(known.value)] else [])
  }

  /** The four rows of the table, one per destination. */
  function AuthorizedRow(file: string): KeyFile { KeyFile(AuthorizedKeys, file, "600") }
  function PrivateRow(file: string): KeyFile { KeyFile(PrivateKey, file, "600") }
  function PublicRow(file: string): KeyFile { KeyFile(PublicKey, file + ".pub", "644") }
  function KnownHostsRow(file: string): KeyFile { KeyFile(KnownHosts, file, "600") }

  /** The table, spelt out for each of the eight combinations of present settings. */
  lemma TableCases(authorized: Option<string>, key: Option<string>, known: Option<string>)
    ensures var r := Table(authorized, key, known);
            var A := AuthorizedRow(if authorized.Some? then authorized.value else "");
            var P := PrivateRow(if key.Some? then key.value else "");
            var Q := PublicRow(if key.Some? then key.value else "");
            var K := KnownHostsRow(if known.Some? then known.value else "");
            (authorized.Some? && key.Some? && known.Some? ==> r == [A, P, Q, K]) &&
            (authorized.Some? && key.Some? && known.None? ==> r == [A, P, Q]) &&
            (authorized.Some? && key.None? && known.Some? ==> r == [A, K]) &&
            (authorized.Some? && key.None? && known.None? ==> r == [A]) &&
            (authorized.None? && key.Some? && known.Some? ==> r == [P, Q, K]) &&
            (authorized.None? && key.Some? && known.None? ==> r == [P, Q]) &&
            (authorized.None? && key.None? && known.Some? ==> r == [K]) &&
            (authorized.None? && key.None? && known.None? ==> r == [])
  {
  }

  /** The table names each destination at most once. */
  lemma KeyFilesDistinct(authorized: Option<string>, key: Option<string>, known: Option<string>)
    ensures var r := Table(authorized, key, known);
            forall i, j :: 0 <= i < j < |r| ==> r[i].dest != r[j].dest
  {
    TableCases(authorized, key, known);
  }

  /** Every key is readable by its user only, except the public key. */
  lemma KeyFilesPermissions(authorized: Option<string>, key: Option<string>, known: Option<string>)
    ensures var r := Table(authorized, key, known);
            forall k :: 0 <= k < |r| ==> r[k].permissions == if r[k].dest == PublicKey then "644" else "600"
  {
    TableCases(authorized, key, known);
  }

  /** The public key follows the private one and is read from beside it. */
  lemma KeyFilesPublicKey(authorized: Option<string>, key: Option<string>, known: Option<string>)
    ensures var r := Table(authorized, key, known);
            forall k :: 0 <= k < |r| && r[k].dest == PublicKey ==>
              0 < k && r[k - 1].dest == PrivateKey && r[k].source == r[k - 1].source + ".pub"
  {
    TableCases(authorized, key, known);
  }

  /** The table names a destination exactly when its setting is truthy. */
  lemma KeyFilesListed(authorized: Option<string>, key: Option<string>, known: Option<string>)
    ensures Lists(Table(authorized, key, known), AuthorizedKeys) <==> authorized.Some?
    ensures Lists(Table(authorized, key, known), PrivateKey) <==> key.Some?
    ensures Lists(Table(authorized, key, known), PublicKey) <==> key.Some?
    ensures Lists(Table(authorized, key, known), KnownHosts) <==> known.Some?
  {
    TableCases(authorized, key, known);
    var r := Table(authorized, key, known);
    var p := if authorized.Some? then 1 else 0;
    if authorized.Some? { assert r[0].dest == AuthorizedKeys; }
    if key.Some? { assert r[p].dest == PrivateKey && r[p + 1].dest == PublicKey; }
    if known.Some? { assert r[|r| - 1].dest == KnownHosts; }
  }

  predicate StartsWith(s: string, prefix: string)
  {
    |prefix| <= |s| && s[..|prefix|] == prefix
  }

  /** `substr($source, 0, 7) == 'http://' || substr($source, 0, 8) == 'https://'` */
  predicate IsUrl(source: string)
  {
    StartsWith(source, "http://") || StartsWith(source, "https://")
  }

  /**
   * The temporary file that holds the download of `url` for entry `k` of the
   * table (`readHttpResource`, `tempnam` and `file_put_contents`).
   */
  type Fetch = (nat, string) -> string

  /** What `copySSHKeys` uploads for entry `k`. */
  function UploadSource(f: KeyFile, k: nat, fetch: Fetch): string
  {
    if IsUrl(f.source) then fetch(k, f.source) else f.source
  }

  function ChmodCommand(permissions: string, dest: string): string
  {
    "#!chmod " + permissions + " " + dest
  }

  /** The upload and `chmod` of every entry of `files`, in order. */
  function FileOps(files: seq<KeyFile>, fetch: Fetch): (r: seq<Op>)
    ensures |r| == 2 * |files|
    decreases |files|
  {
    if files == [] then []
    else
      var k := |files| - 1;
      FileOps(files[..k], fetch) +
        [Uploaded(UploadSource(files[k], k, fetch), files[k].dest), Ran(ChmodCommand(files[k].permissions, files[k].dest))]
  }

  /** Entry `k` is uploaded as operation `2k` and given its permissions as operation `2k + 1`. */
  lemma {:induction false} FileOpsAt(files: seq<KeyFile>, fetch: Fetch, k: nat)
    requires k < |files|
    ensures FileOps(files, fetch)[2 * k] == Uploaded(UploadSource(files[k], k, fetch), files[k].dest)
    ensures FileOps(files, fetch)[2 * k + 1] == Ran(ChmodCommand(files[k].permissions, files[k].dest))
    decreases |files|
  {
    var n := |files| - 1;
    if k < n {
      FileOpsAt(files[..n], fetch, k);
      assert files[..n][k] == files[k];
    }
  }

  /** `copySSHKeys` on the host's shell: nothing without files, else every file and then the `.ssh` folder. */
  function CopyOps(files: seq<KeyFile>, fetch: Fetch): (r: seq<Op>)
    ensures files == [] <==> r == []
    ensures files != [] ==> |r| == 2 * |files| + 1 && r[|r| - 1] == Ran(LockSshDir)
  {
    if files == [] then [] else FileOps(files, fetch) + [Ran(LockSshDir)]
  }

  /**
   * Every file of the table is uploaded and then given its permissions, in
   * table order, and the `.ssh` folder is locked last.
   */
  lemma CopyOpsUploadsEach(files: seq<KeyFile>, fetch: Fetch, k: nat)
    requires k < |files|
    ensures CopyOps(files, fetch)[2 * k] == Uploaded(UploadSource(files[k], k, fetch), files[k].dest)
    ensures CopyOps(files, fetch)[2 * k + 1] == Ran(ChmodCommand(files[k].permissions, files[k].dest))
  {
    FileOpsAt(files, fetch, k);
  }

  /** The `$files` table as `copySSHKeys` builds it. */
  method KeyTable(settings: Value) returns (files: seq<KeyFile>)
    ensures files == KeyFiles(settings)
  {
    files := [];
    var file := KeySetting(settings, "dockerAuthorizedKeyFile");
    if file.Some? {
      files := files + [KeyFile(AuthorizedKeys, file.value, "600")];
    }
    file := KeySetting(settings, "dockerKeyFile");
    if file.Some? {
      files := files + [KeyFile(PrivateKey, file.value, "600"), KeyFile(PublicKey, file.value + ".pub", "644")];
    }
    file := KeySetting(settings, "dockerKnownHostsFile");
    if file.Some? {
      files := files + [KeyFile(KnownHosts, file.value, "600")];
    }
  }

  /** The `foreach` of `copySSHKeys`: every file uploaded and given its permissions. */
  method UploadFiles(files: seq<KeyFile>, fetch: Fetch, shell: Shell)
    modifies shell`log
    ensures shell.log == old(shell.log) + FileOps(files, fetch)
  {
    for i := 0 to |files|
      invariant shell.log == old(shell.log) + FileOps(files[..i], fetch)
    {
      var source := files[i].source;
      if IsUrl(source) {
        source := fetch(i, source);
      }
      shell.PutFile(source, files[i].dest);
      var _ := shell.Run(ChmodCommand(files[i].permissions, files[i].dest));
      assert files[..i + 1][..i] == files[..i];
      AppendTwo(old(shell.log) + FileOps(files[..i], fetch), Uploaded(source, files[i].dest),
                Ran(ChmodCommand(files[i].permissions, files[i].dest)));
      AppendAssoc(old(shell.log), FileOps(files[..i], fetch),
                  [Uploaded(source, files[i].dest), Ran(ChmodCommand(files[i].permissions, files[i].dest))]);
    }
    assert files[..|files|] == files;
  }

  /** `copySSHKeys` */
  method CopySshKeys(settings: Value, fetch: Fetch, shell: Shell)
    modifies shell`log
    ensures shell.log == old(shell.log) + CopyOps(KeyFiles(settings), fetch)
  {
    var files := KeyTable(settings);
    if |files| > 0 {
      UploadFiles(files, fetch, shell);
      var _ := shell.Run(LockSshDir);
    }
  }

  // ---------------------------------------------------------------------------
  // Container inspection and remote access.

  function InspectRunning(container: string): string
  {
    "docker inspect -f {{.State.Running}} " + container
  }

  function InspectAddress(container: string): string
  {
    "docker inspect --format \"{{range .NetworkSettings.Networks}}{{.IPAddress}}\\n{{end}}\" " + container
  }

  /** `array_pop($output)`, with an empty output reading as the empty string. */
  function LastLine(output: seq<string>): string
  {
    if output == [] then "" else output[|output| - 1]
  }

  /** `strtolower(trim($last_line)) === 'true'` */
  predicate ReportsTrue(output: seq<string>)
  {
    Lower(Trim(LastLine(output))) == "true"
  }

  /** Only the last line counts, whatever its case and surrounding blanks. */
  lemma ReportsTrueExamples()
    ensures ReportsTrue(["false", " True\n"])
    ensures !ReportsTrue(["true", "false"])
    ensures !ReportsTrue([])
  {
    assert Trim(" True\n") == "True";
    assert Lower("True") == "true";
    assert Lower("false") != "true";
    assert Trim("false") == "false";
    assert Lower("") == "";
  }

  /** `isContainerRunning` */
  method IsContainerRunning(shell: Shell, container: string) returns (running: bool)
    modifies shell`log
    ensures shell.log == old(shell.log) + [Ran(InspectRunning(container))]
    ensures running == ReportsTrue(shell.answer(|old(shell.log)|, InspectRunning(container)).output)
  {
    var result := shell.Run(InspectRunning(container));
    running := Lower(Trim(LastLine(result.output))) == "true";
  }

  /** PHP `str_replace($pat, '', $s)`: every occurrence of `pat`, scanning left to right, removed. */
  function Strip(s: string, pat: string): (r: string)
    requires |pat| > 0
    ensures |r| <= |s|
    decreases |s|
  {
    if |s| < |pat| then s
    else if s[..|pat|] == pat then Strip(s[|pat|..], pat)
    else [s[0]] + Strip(s[1..], pat)
  }

  /** A line without the pattern's first character comes through unchanged. */
  lemma {:induction false} StripKeeps(s: string, pat: string)
    requires |pat| > 0 && forall k :: 0 <= k < |s| ==> s[k] != pat[0]
    ensures Strip(s, pat) == s
    decreases |s|
  {
    if |pat| <= |s| {
      assert s[..|pat|][0] == s[0];
      StripKeeps(s[1..], pat);
      assert s == [s[0]] + s[1..];
    }
  }

  /** The address line with the escaped `\r` and `\n` sequences removed. */
  function Unescaped(line: string): string
  {
    Strip(Strip(line, "\\r"), "\\n")
  }

  /** An address line without backslashes is reported as it is. */
  lemma AddressUnchanged(line: string)
    requires forall k :: 0 <= k < |line| ==> line[k] != '\\'
    ensures Unescaped(line) == line
  {
    StripKeeps(line, "\\r");
    StripKeeps(line, "\\n");
  }

  /** `$output[0]`, with an empty output reading as the empty string. */
  function FirstLine(output: seq<string>): string
  {
    if output == [] then "" else output[0]
  }

  /** `$host_config['docker']['name']` */
  function Container(host: map<string, Value>): string
  {
    ToStr(Field(Lookup(host, "docker"), "name"))
  }

  datatype Probe = Probe(log: seq<Op>, ip: Value)

  /** `getIpAddress` on the docker shell. */
  function AddressSpec(answer: Answer, container: string, log: seq<Op>): Probe
  {
    var running := log + [Ran(InspectRunning(container))];
    if !ReportsTrue(answer(|log|, InspectRunning(container)).output) then Probe(running, Bool(false))
    else
      var result := answer(|running|, InspectAddress(container));
      var inspected := running + [Ran(InspectAddress(container))];
      if result.exitCode == 0 then Probe(inspected, Str(Unescaped(FirstLine(result.output))))
      else Probe(inspected, Bool(false))
  }

  /**
   * The address is reported only for a running container whose inspection
   * succeeds, and is then the first output line without escaped line breaks;
   * otherwise the result is false.
   */
  lemma AddressReported(answer: Answer, container: string, log: seq<Op>)
    ensures var r := AddressSpec(answer, container, log);
            r.ip.Str? || r.ip == Bool(false)
    ensures var r := AddressSpec(answer, container, log);
            r.ip.Str? <==> ReportsTrue(answer(|log|, InspectRunning(container)).output) &&
                           answer(|log| + 1, InspectAddress(container)).exitCode == 0
    ensures var r := AddressSpec(answer, container, log);
            r.ip.Str? ==> r.ip.s == Unescaped(FirstLine(answer(|log| + 1, InspectAddress(container)).output))
  {
    assert |log + [Ran(InspectRunning(container))]| == |log| + 1;
  }

  /** The address is inspected only for a running container. */
  lemma AddressProbes(answer: Answer, container: string, log: seq<Op>)
    ensures var r := AddressSpec(answer, container, log);
            if ReportsTrue(answer(|log|, InspectRunning(container)).output)
            then r.log == log + [Ran(InspectRunning(container)), Ran(InspectAddress(container))]
            else r.log == log + [Ran(InspectRunning(container))]
  {
    assert |log + [Ran(InspectRunning(container))]| == |log| + 1;
  }

  /** `getIpAddress` */
  method GetIpAddress(host: map<string, Value>, shell: Shell) returns (ip: Value)
    modifies shell`log
    ensures Probe(shell.log, ip) == AddressSpec(shell.answer, Container(host), old(shell.log))
  {
    var container := ToStr(Field(Lookup(host, "docker"), "name"));
    var running := IsContainerRunning(shell, container);
    if !running {
      return Bool(false);
    }
    var result := shell.Run(InspectAddress(container));
    if result.exitCode == 0 {
      return Str(Unescaped(FirstLine(result.output)));
    }
    return Bool(false);
  }

  /** The fully qualified name of the ssh shell provider's class. */
  const SshShellClass := "Phabalicious\\ShellProvider\\SshShellProvider"
  /** The class name `startRemoteAccess` passes to `is_a`. */
  const TestedAsWritten := "SshShellProvider"

  /**
   * The results of `startRemoteAccess` when `is_a` is asked about `tested`;
   * `classes` are the fully qualified names of the docker shell's class and
   * its ancestors.
   */
  function RemoteAccessResults(results: map<string, Value>, ip: Value, config: map<string, Value>,
                               classes: set<string>, tested: string): map<string, Value>
  {
    if tested in classes then results["ip" := ip]["config" := Dict(config)] else results["ip" := ip]
  }

  predicate Qualified(className: string)
  {
    exists k :: 0 <= k < |className| && className[k] == '\\'
  }

  /**
   * As written, `is_a` is asked about a class name without its namespace, which
   * no fully qualified class name equals: `config` is never reported.
   */
  lemma AsWrittenNeverReportsConfig(results: map<string, Value>, ip: Value, config: map<string, Value>,
                                    classes: set<string>)
    requires forall c :: c in classes ==> Qualified(c)
    ensures RemoteAccessResults(results, ip, config, classes, TestedAsWritten) == results["ip" := ip]
  {
    assert !Qualified(TestedAsWritten);
  }

  /** A docker host reached over ssh: as written no `config`, with the qualified name the docker configuration. */
  lemma SshDockerHostDiffers(results: map<string, Value>, ip: Value, config: map<string, Value>)
    ensures var classes := {SshShellClass, "Phabalicious\\ShellProvider\\BaseShellProvider"};
            "config" !in RemoteAccessResults(results, ip, config, classes, TestedAsWritten) - results.Keys &&
            RemoteAccessResults(results, ip, config, classes, SshShellClass)["config"] == Dict(config)
  {
    var classes := {SshShellClass, "Phabalicious\\ShellProvider\\BaseShellProvider"};
    assert Qualified(SshShellClass) by {
      assert SshShellClass[12] == '\\';
    }
    assert Qualified("Phabalicious\\ShellProvider\\BaseShellProvider") by {
      assert "Phabalicious\\ShellProvider\\BaseShellProvider"[12] == '\\';
    }
    AsWrittenNeverReportsConfig(results, ip, config, classes);
  }

  /** `startRemoteAccess`, with `is_a` asked about the qualified class name. */
  method StartRemoteAccess(host: map<string, Value>, config: map<string, Value>, classes: set<string>,
                           ctx: TaskContext, shell: Shell)
    modifies ctx`results, shell`log
    ensures var p := AddressSpec(shell.answer, Container(host), old(shell.log));
            shell.log == p.log &&
            ctx.results == RemoteAccessResults(old(ctx.results), p.ip, config, classes, SshShellClass)
  {
    var ip := GetIpAddress(host, shell);
    ctx.SetResult("ip", ip);
    if SshShellClass in classes {
      ctx.SetResult("config", Dict(config));
    }
  }

  // ---------------------------------------------------------------------------
  // The three phases.

  /** What a docker task reads besides the state: configurations, oracles and helpers. */
  datatype Setup = Setup(host: map<string, Value>, config: map<string, Value>, settings: Value, u: Utilities,
                         hostAnswer: Answer, docker: Oracle, fetch: Fetch, classes: set<string>)

  /** The interpreter's state on the docker shell, and the host shell's log. */
  datatype DockerState = DockerState(script: State, hostLog: seq<Op>)

  datatype Stepped = Stepped(state: DockerState, err: Option<Error>)

  function WaitStep(s: Setup, ds: DockerState): Stepped
  {
    var w := WaitSpec(s.hostAnswer, s.host, ds.hostLog);
    Stepped(ds.(hostLog := w.log), w.err)
  }

  function CopyStep(s: Setup, ds: DockerState): Stepped
  {
    Stepped(ds.(hostLog := ds.hostLog + CopyOps(KeyFiles(s.settings), s.fetch)), None)
  }

  function AccessStep(s: Setup, ds: DockerState): Stepped
  {
    var p := AddressSpec(s.docker.answer, Container(s.host), ds.script.log);
    Stepped(ds.(script := ds.script.(log := p.log,
                                     results := RemoteAccessResults(ds.script.results, p.ip, s.config, s.classes, SshShellClass))),
            None)
  }

  /** One of the handler's own tasks. */
  function MethodStep(s: Setup, name: string, ds: DockerState): Stepped
  {
    if name == "waitForServices" then WaitStep(s, ds)
    else if name == "copySSHKeys" then CopyStep(s, ds)
    else AccessStep(s, ds)
  }

  /** A script of the docker configuration, run on the docker shell. */
  function ScriptStep(s: Setup, script: Value, ds: DockerState): Stepped
  {
    var out := RunScriptSpec(s.docker, s.u, s.host, s.settings, ds.script.(vars := ScriptVars(ds.script.vars, s.config, script)));
    Stepped(DockerState(out.state, ds.hostLog), out.err)
  }

  /** `runTaskImpl` for a task that names none of the handler's methods. */
  function ConfigStep(s: Setup, task: string, silent: bool, ds: DockerState): Stepped
  {
    var script := TaskScript(s.config, task);
    if Empty(script) then (if silent then Stepped(ds, None) else Stepped(ds, Some(MethodNotFound(task))))
    else ScriptStep(s, script, ds)
  }

  /** `runTaskImpl` */
  function TaskStep(s: Setup, task: string, silent: bool, ds: DockerState): (r: Stepped)
    ensures r == match Resolve(s.config, task, silent)
                 case Method(name) => MethodStep(s, name, ds)
                 case Script(script) => ScriptStep(s, script, ds)
                 case Skip => Stepped(ds, None)
                 case Missing => Stepped(ds, Some(MethodNotFound(task)))
  {
    if InList(task, TaskMethods) then MethodStep(s, task, ds) else ConfigStep(s, task, silent, ds)
  }

  /** The task `docker` runs. */
  function DockerTask(vars: map<string, Value>): string
  {
    ToStr(VarOr(vars, "docker_task", Null))
  }

  /** `docker`: the three phases, each starting where the previous one ended; an error stops the run. */
  function DockerSpec(s: Setup, ds: DockerState): Stepped
  {
    var task := DockerTask(ds.script.vars);
    var prepare := TaskStep(s, task + "Prepare", true, ds);
    if prepare.err.Some? then prepare
    else
      var main := TaskStep(s, task, false, prepare.state);
      if main.err.Some? then main
      else TaskStep(s, task + "Finished", true, main.state)
  }

  /** A task without `Prepare` and `Finished` scripts is its main script alone. */
  lemma SilentPhasesSkipped(s: Setup, ds: DockerState)
    requires var task := DockerTask(ds.script.vars);
             Resolve(s.config, task + "Prepare", true).Skip? && Resolve(s.config, task + "Finished", true).Skip?
    ensures DockerSpec(s, ds) == TaskStep(s, DockerTask(ds.script.vars), false, ds)
  {
  }

  /** A main task that neither the handler nor the configuration defines fails after `Prepare`, and `Finished` does not run. */
  lemma MissingTaskStops(s: Setup, ds: DockerState)
    requires var task := DockerTask(ds.script.vars);
             !InList(task, TaskMethods) && Empty(TaskScript(s.config, task))
    ensures var task := DockerTask(ds.script.vars);
            var prepare := TaskStep(s, task + "Prepare", true, ds);
            DockerSpec(s, ds) == if prepare.err.Some? then prepare else Stepped(prepare.state, Some(MethodNotFound(task)))
  {
  }

  function SetupOf(host: map<string, Value>, config: map<string, Value>, settings: Value, u: Utilities,
                   fetch: Fetch, classes: set<string>, hostShell: Shell, dockerShell: Shell): Setup
  {
    Setup(host, config, settings, u, hostShell.answer, Oracle(dockerShell.answer, dockerShell.present), fetch, classes)
  }

  function StateIn(scripts: ScriptMethod, ctx: TaskContext, hostShell: Shell, dockerShell: Shell): DockerState
    reads scripts, ctx, hostShell, dockerShell
  {
    DockerState(scripts.StateOf(ctx, dockerShell), hostShell.log)
  }

  /** `waitForServices` as a docker task. */
  method RunWait(scripts: ScriptMethod, host: map<string, Value>, config: map<string, Value>,
                 settings: Value, u: Utilities, fetch: Fetch, classes: set<string>,
                 ctx: TaskContext, hostShell: Shell, dockerShell: Shell) returns (err: Option<Error>)
    requires hostShell != dockerShell
    modifies hostShell`log
    ensures Stepped(StateIn(scripts, ctx, hostShell, dockerShell), err) ==
              WaitStep(SetupOf(host, config, settings, u, fetch, classes, hostShell, dockerShell),
                       old(StateIn(scripts, ctx, hostShell, dockerShell)))
  {
    err := WaitForServices(host, hostShell);
  }

  /** `copySSHKeys` as a docker task. */
  method RunCopy(scripts: ScriptMethod, host: map<string, Value>, config: map<string, Value>,
                 settings: Value, u: Utilities, fetch: Fetch, classes: set<string>,
                 ctx: TaskContext, hostShell: Shell, dockerShell: Shell) returns (err: Option<Error>)
    requires hostShell != dockerShell
    modifies hostShell`log
    ensures Stepped(StateIn(scripts, ctx, hostShell, dockerShell), err) ==
              CopyStep(SetupOf(host, config, settings, u, fetch, classes, hostShell, dockerShell),
                       old(StateIn(scripts, ctx, hostShell, dockerShell)))
  {
    CopySshKeys(settings, fetch, hostShell);
    err := None;
  }

  /** `startRemoteAccess` as a docker task. */
  method RunAccess(scripts: ScriptMethod, host: map<string, Value>, config: map<string, Value>,
                   settings: Value, u: Utilities, fetch: Fetch, classes: set<string>,
                   ctx: TaskContext, hostShell: Shell, dockerShell: Shell) returns (err: Option<Error>)
    requires hostShell != dockerShell
    modifies ctx`results, dockerShell`log
    ensures Stepped(StateIn(scripts, ctx, hostShell, dockerShell), err) ==
              AccessStep(SetupOf(host, config, settings, u, fetch, classes, hostShell, dockerShell),
                         old(StateIn(scripts, ctx, hostShell, dockerShell)))
  {
    ghost var ds := StateIn(scripts, ctx, hostShell, dockerShell);
    StartRemoteAccess(host, config, classes, ctx, dockerShell);
    assert StateIn(scripts, ctx, hostShell, dockerShell) ==
           ds.(script := ds.script.(log := dockerShell.log, results := ctx.results));
    err := None;
  }

  /** The handler's own tasks. */
  method RunMethod(scripts: ScriptMethod, name: string, host: map<string, Value>, config: map<string, Value>,
                   settings: Value, u: Utilities, fetch: Fetch, classes: set<string>,
                   ctx: TaskContext, hostShell: Shell, dockerShell: Shell) returns (err: Option<Error>)
    requires hostShell != dockerShell
    modifies ctx`results, hostShell`log, dockerShell`log
    ensures Stepped(StateIn(scripts, ctx, hostShell, dockerShell), err) ==
              MethodStep(SetupOf(host, config, settings, u, fetch, classes, hostShell, dockerShell), name,
                         old(StateIn(scripts, ctx, hostShell, dockerShell)))
  {
    if name == "waitForServices" {
      err := RunWait(scripts, host, config, settings, u, fetch, classes, ctx, hostShell, dockerShell);
    } else if name == "copySSHKeys" {
      err := RunCopy(scripts, host, config, settings, u, fetch, classes, ctx, hostShell, dockerShell);
    } else {
      err := RunAccess(scripts, host, config, settings, u, fetch, classes, ctx, hostShell, dockerShell);
    }
  }

  /** The context a docker script runs in. */
  method EnterScript(ctx: TaskContext, config: map<string, Value>, script: Value)
    modifies ctx`vars
    ensures ctx.vars == ScriptVars(old(ctx.vars), config, script)
  {
    ctx.Set("scriptData", script);
    ctx.Set("variables", Dict(map["dockerHost" := Dict(config)]));
    ctx.Set("environment", VarOr(config, "environment", List([])));
    ctx.Set("callbacks", List([]));
    ctx.Set("rootFolder", Lookup(config, "rootFolder"));
  }

  /** A script of the docker configuration. */
  method RunDockerScript(scripts: ScriptMethod, script: Value, host: map<string, Value>, config: map<string, Value>,
                         settings: Value, u: Utilities, fetch: Fetch, classes: set<string>,
                         ctx: TaskContext, hostShell: Shell, dockerShell: Shell) returns (err: Option<Error>)
    requires hostShell != dockerShell
    modifies scripts, ctx`vars, ctx`results, ctx`commandResult, dockerShell`log, dockerShell`workingDir
    ensures Stepped(StateIn(scripts, ctx, hostShell, dockerShell), err) ==
              ScriptStep(SetupOf(host, config, settings, u, fetch, classes, hostShell, dockerShell), script,
                         old(StateIn(scripts, ctx, hostShell, dockerShell)))
  {
    EnterScript(ctx, config, script);
    err := scripts.RunScript(host, settings, ctx, dockerShell, u);
  }

  /** `runTaskImpl` */
  method RunTaskImpl(scripts: ScriptMethod, task: string, silent: bool, host: map<string, Value>,
                     config: map<string, Value>, settings: Value, u: Utilities, fetch: Fetch, classes: set<string>,
                     ctx: TaskContext, hostShell: Shell, dockerShell: Shell) returns (err: Option<Error>)
    requires hostShell != dockerShell
    modifies scripts, ctx`vars, ctx`results, ctx`commandResult, hostShell`log, dockerShell`log, dockerShell`workingDir
    ensures Stepped(StateIn(scripts, ctx, hostShell, dockerShell), err) ==
              TaskStep(SetupOf(host, config, settings, u, fetch, classes, hostShell, dockerShell), task, silent,
                       old(StateIn(scripts, ctx, hostShell, dockerShell)))
  {
    if InList(task, TaskMethods) {
      err := RunMethod(scripts, task, host, config, settings, u, fetch, classes, ctx, hostShell, dockerShell);
    } else {
      err := RunConfigTask(scripts, task, silent, host, config, settings, u, fetch, classes, ctx, hostShell, dockerShell);
    }
  }

  /** `runTaskImpl` for a task that names none of the handler's methods. */
  method RunConfigTask(scripts: ScriptMethod, task: string, silent: bool, host: map<string, Value>,
                       config: map<string, Value>, settings: Value, u: Utilities, fetch: Fetch, classes: set<string>,
                       ctx: TaskContext, hostShell: Shell, dockerShell: Shell) returns (err: Option<Error>)
    requires hostShell != dockerShell && !InList(task, TaskMethods)
    modifies scripts, ctx`vars, ctx`results, ctx`commandResult, dockerShell`log, dockerShell`workingDir
    ensures Stepped(StateIn(scripts, ctx, hostShell, dockerShell), err) ==
              ConfigStep(SetupOf(host, config, settings, u, fetch, classes, hostShell, dockerShell), task, silent,
                         old(StateIn(scripts, ctx, hostShell, dockerShell)))
  {
    var tasks := Lookup(config, "tasks");
    if silent && Empty(Field(tasks, task)) {
      return None;
    }
    if Empty(Field(tasks, task)) {
      return Some(MethodNotFound(task));
    }
    err := RunDockerScript(scripts, Field(tasks, task), host, config, settings, u, fetch, classes, ctx, hostShell, dockerShell);
  }

  /** `docker` */
  method Docker(scripts: ScriptMethod, host: map<string, Value>, config: map<string, Value>, settings: Value,
                u: Utilities, fetch: Fetch, classes: set<string>, ctx: TaskContext, hostShell: Shell, dockerShell: Shell)
    returns (err: Option<Error>)
    requires hostShell != dockerShell
    modifies scripts, ctx`vars, ctx`results, ctx`commandResult, hostShell`log, dockerShell`log, dockerShell`workingDir
    ensures Stepped(StateIn(scripts, ctx, hostShell, dockerShell), err) ==
              DockerSpec(SetupOf(host, config, settings, u, fetch, classes, hostShell, dockerShell),
                         old(StateIn(scripts, ctx, hostShell, dockerShell)))
  {
    var task := ToStr(ctx.Get("docker_task", Null));
    err := RunTaskImpl(scripts, task + "Prepare", true, host, config, settings, u, fetch, classes, ctx, hostShell, dockerShell);
    if err.Some? {
      return;
    }
    err := RunTaskImpl(scripts, task, false, host, config, settings, u, fetch, classes, ctx, hostShell, dockerShell);
    if err.Some? {
      return;
    }
    err := RunTaskImpl(scripts, task + "Finished", true, host, config, settings, u, fetch, classes, ctx, hostShell, dockerShell);
  }
}
