/**
 * DrushMethod: the Drupal handler. Modelled here: which names it answers to,
 * the configuration it derives from `needs`, the late uuid check, database
 * dumps and restores, module lists, the core update, and the wait for the
 * database to come up. Commands run on the host's shell; `runDrush` prefixes
 * `#!drush `.
 */
module DrushMethod {
  import opened Common
  import opened Context
  import opened ShellProvider
  import opened Validation

  const Names := ["drush", "drush7", "drush8", "drush9"]
  const SqlDrop := "#!drush sql-drop -y"
  const MissingUuid := "Drupal 8 needs a global uuid-setting"
  const DownloadFailed := "Could not download drupal via drush!"
  const NoDatabase := "Could not connect to database!"
  const MaxPings := 10

  /** `supports` */
  predicate Supports(methodName: string)
  {
    InList(methodName, Names)
  }

  /** The handler answers to exactly its four names. */
  lemma SupportsExactly(methodName: string)
    ensures Supports(methodName) <==>
            methodName == "drush" || methodName == "drush7" || methodName == "drush8" || methodName == "drush9"
  {
    if methodName == "drush" {
      assert Names[0] == methodName;
    } else if methodName == "drush7" {
      assert Names[1] == methodName;
    } else if methodName == "drush8" {
      assert Names[2] == methodName;
    } else if methodName == "drush9" {
      assert Names[3] == methodName;
    }
  }

  /** The host's `needs`, as names. */
  function Needs(host: map<string, Value>): seq<string>
  {
    Strings(Lookup(host, "needs"))
  }

  const SettingKeys := ["adminUser", "revertFeatures", "replaceSettingsFile", "configurationManagement", "installOptions"]

  /** `config` with each of `keys` set from the global settings (a missing setting reads as null). */
  function WithSettings(config: map<string, Value>, settings: map<string, Value>, keys: seq<string>): (r: map<string, Value>)
  {
    map key | key in config.Keys + (set k | k in keys) :: if key in keys then Lookup(settings, key) else config[key]
  }

  /** Setting one more key extends the copy by that key. */
  lemma WithSettingsStep(config: map<string, Value>, settings: map<string, Value>, keys: seq<string>, i: nat)
    requires i < |keys|
    ensures WithSettings(config, settings, keys[..i + 1]) == WithSettings(config, settings, keys[..i])[keys[i] := Lookup(settings, keys[i])]
  {
    assert forall key :: key in keys[..i + 1] <==> key in keys[..i] || key == keys[i] by {
      assert keys[..i + 1] == keys[..i] + [keys[i]];
    }
  }

  /** The database defaults `getDefaultConfig` writes over whatever the parent put there. */
  function DatabaseDefaults(database: Value): (r: Value)
    ensures r.Dict? && r.entries.Keys == DictEntries(database).Keys + {"host", "skipCreateDatabase", "prefix"}
    ensures r.entries["host"] == Str("localhost") && r.entries["skipCreateDatabase"] == Bool(false)
    ensures r.entries["prefix"] == Bool(false)
    ensures forall key :: key in DictEntries(database) && key !in {"host", "skipCreateDatabase", "prefix"} ==>
              r.entries[key] == DictEntries(database)[key]
  {
    Dict(DictEntries(database)["host" := Str("localhost")]["skipCreateDatabase" := Bool(false)]["prefix" := Bool(false)])
  }

  /** The settings and the database defaults of `getDefaultConfig`. */
  function SettingsAndDatabase(base: map<string, Value>, settings: map<string, Value>, host: map<string, Value>): map<string, Value>
  {
    var withSettings := WithSettings(base, settings, SettingKeys);
    if IsSet(host, "database")
    then withSettings["database" := DatabaseDefaults(Lookup(withSettings, "database"))]
    else withSettings
  }

  /**
   * `getDefaultConfig` over the parent's defaults `base`: the versions derive
   * from `needs`, and database defaults apply only to a host with a database.
   */
  function DefaultConfig(base: map<string, Value>, settings: map<string, Value>, host: map<string, Value>): map<string, Value>
  {
    FixedDefaults(SettingsAndDatabase(base, settings, host), Needs(host))
  }

  /** The defaults `getDefaultConfig` sets whatever the settings and the parent say. */
  function FixedDefaults(config: map<string, Value>, needs: seq<string>): map<string, Value>
  {
    config
      ["drupalVersion" := Int(if InList("drush7", needs) then 7 else 8)]
      ["drushVersion" := Int(if InList("drush9", needs) then 9 else 8)]
      ["supportsZippedBackups" := Bool(true)]
      ["siteFolder" := Str("sites/default")]
      ["filesFolder" := Str("sites/default/files")]
  }

  /** `getDefaultConfig`, with its loop over the settings keys. */
  method GetDefaultConfig(base: map<string, Value>, settings: map<string, Value>, host: map<string, Value>)
    returns (config: map<string, Value>)
    ensures config == DefaultConfig(base, settings, host)
  {
    config := base;
    for i := 0 to |SettingKeys|
      invariant config == WithSettings(base, settings, SettingKeys[..i])
    {
      WithSettingsStep(base, settings, SettingKeys, i);
      config := config[SettingKeys[i] := Lookup(settings, SettingKeys[i])];
    }
    assert SettingKeys[..|SettingKeys|] == SettingKeys;
    if IsSet(host, "database") {
      config := config["database" := DatabaseDefaults(Lookup(config, "database"))];
    }
    assert config == SettingsAndDatabase(base, settings, host);
    config := FixedDefaults(config, Needs(host));
  }

  /** Drupal 7 exactly for `drush7`, drush 9 exactly for `drush9`, and the fixed folders. */
  lemma DefaultVersions(base: map<string, Value>, settings: map<string, Value>, host: map<string, Value>)
    ensures var r := DefaultConfig(base, settings, host);
            (r["drupalVersion"] == Int(7) <==> InList("drush7", Needs(host))) &&
            (r["drupalVersion"] == Int(7) || r["drupalVersion"] == Int(8))
    ensures var r := DefaultConfig(base, settings, host);
            (r["drushVersion"] == Int(9) <==> InList("drush9", Needs(host))) &&
            (r["drushVersion"] == Int(9) || r["drushVersion"] == Int(8))
    ensures var r := DefaultConfig(base, settings, host);
            r["supportsZippedBackups"] == Bool(true) && r["siteFolder"] == Str("sites/default") &&
            r["filesFolder"] == Str("sites/default/files")
  {
  }

  /** The fixed defaults leave every other key as it was. */
  lemma FixedDefaultsKeep(config: map<string, Value>, needs: seq<string>, key: string)
    requires key != "drupalVersion" && key != "drushVersion" && key != "supportsZippedBackups"
    requires key != "siteFolder" && key != "filesFolder"
    ensures key in FixedDefaults(config, needs) <==> key in config
    ensures key in config ==> FixedDefaults(config, needs)[key] == config[key]
  {
  }

  /** Database defaults apply exactly when the host has a database; the settings keys are copied. */
  lemma DefaultDatabase(base: map<string, Value>, settings: map<string, Value>, host: map<string, Value>)
    ensures var r := DefaultConfig(base, settings, host);
            IsSet(host, "database") ==> r["database"] == DatabaseDefaults(Lookup(base, "database"))
    ensures var r := DefaultConfig(base, settings, host);
            !IsSet(host, "database") ==> ("database" in r <==> "database" in base) &&
                                         ("database" in base ==> r["database"] == base["database"])
    ensures var r := DefaultConfig(base, settings, host);
            forall k :: 0 <= k < |SettingKeys| ==> r[SettingKeys[k]] == Lookup(settings, SettingKeys[k])
  {
    var w := WithSettings(base, settings, SettingKeys);
    assert "database" !in SettingKeys;
    assert Lookup(w, "database") == Lookup(base, "database");
    var s := SettingsAndDatabase(base, settings, host);
    FixedDefaultsKeep(s, Needs(host), "database");
    forall k | 0 <= k < |SettingKeys|
      ensures DefaultConfig(base, settings, host)[SettingKeys[k]] == Lookup(settings, SettingKeys[k])
    {
      FixedDefaultsKeep(s, Needs(host), SettingKeys[k]);
    }
  }

  /** The keys `validateConfig` requires of every drush host, with their explanations. */
  const RequiredKeys := [("drushVersion", "the major version of the installed drush tool"),
                         ("drupalVersion", "the major version of the drupal-instance"),
                         ("siteFolder", "drush needs a site-folder to locate the drupal-instance"),
                         ("filesFolder", "drush needs to know where files are stored for this drupal instance"),
                         ("backupFolder", "drush needs to know where to store backups into"),
                         ("tmpFolder", "drush needs to know where to store temporary files")]

  /** The keys a non-empty `database` must hold. */
  const DatabaseKeys := [("host", "the database-host"),
                         ("user", "the database user"),
                         ("pass", "the password for the database-user"),
                         ("name", "the database name to use")]

  const DeprecatedNeeds := ["drush7", "drush8", "drush9"]
  const DeprecatedNeedsWarning := "`drush7`, `drush8` and `drush9` are deprecated, " +
                                  "please replace with `drush` and set `drupalVersion` and `drushVersion` accordingly."

  predicate HasDeprecatedNeeds(config: map<string, Value>)
  {
    exists k :: 0 <= k < |DeprecatedNeeds| && InList(DeprecatedNeeds[k], Needs(config))
  }

  /** `validateConfig` (the parent's checks are not part of this model). */
  function ValidateConfig(config: map<string, Value>): (r: seq<Issue>)
  {
    HasKeys(config, RequiredKeys) +
    (if !Empty(Lookup(config, "database")) then HasKeys(DictEntries(config["database"]), DatabaseKeys) else []) +
    (if HasDeprecatedNeeds(config) then [Warning("needs", DeprecatedNeedsWarning)] else [])
  }

  /**
   * The configuration is free of errors iff every required key is set and a
   * database, when given, is complete; a versioned `needs` entry only warns.
   */
  lemma ValidateConfigErrors(config: map<string, Value>)
    ensures var r := ValidateConfig(config);
            HasDeprecatedNeeds(config) <==> |r| > 0 && r[|r| - 1] == Warning("needs", DeprecatedNeedsWarning)
    ensures !HasErrors(ValidateConfig(config)) <==>
              (forall k :: 0 <= k < |RequiredKeys| ==> IsSet(config, RequiredKeys[k].0)) &&
              (!Empty(Lookup(config, "database")) ==>
                 forall k :: 0 <= k < |DatabaseKeys| ==> IsSet(DictEntries(config["database"]), DatabaseKeys[k].0))
  {
    var hk := HasKeys(config, RequiredKeys);
    var db := if !Empty(Lookup(config, "database")) then HasKeys(DictEntries(config["database"]), DatabaseKeys) else [];
    var w := if HasDeprecatedNeeds(config) then [Warning("needs", DeprecatedNeedsWarning)] else [];
    HasErrorsConcat(hk + db, w);
    HasErrorsConcat(hk, db);
    assert !HasErrors(w);
  }

  /**
   * PHP 7's `$data['drupalVersion'] >= 8`: a string reads as its number, a
   * bool compares with `true`, null with `false`, and an array is greater.
   */
  predicate AtLeastEight(v: Value)
  {
    match v
    case Int(i) => i >= 8
    case Str(s) => StringToInt(s) >= 8
    case Bool(b) => b
    case Null => false
    case List(_) => true
    case Dict(_) => true
  }

  datatype Altered = Altered(data: map<string, Value>, err: Option<Error>)

  /**
   * `alterConfig`: prefix site and files folders with the root folder (the
   * prefixing helper is passed in), then refuse Drupal 8 and later without a
   * global uuid. The folders are altered even when it refuses.
   */
  function AlterConfig(data: map<string, Value>, uuid: Value, prepend: (Value, Value) -> Value): (r: Altered)
    ensures r.data == data["siteFolder" := prepend(Lookup(data, "rootFolder"), Lookup(data, "siteFolder"))]
                          ["filesFolder" := prepend(Lookup(data, "rootFolder"), Lookup(data, "filesFolder"))]
    ensures r.err.Some? <==> AtLeastEight(Lookup(data, "drupalVersion")) && Empty(uuid)
    ensures r.err.Some? ==> r.err.value == ValidationFailed([MissingUuid])
  {
    var root := Lookup(data, "rootFolder");
    var altered := data["siteFolder" := prepend(root, Lookup(data, "siteFolder"))]
                       ["filesFolder" := prepend(root, Lookup(data, "filesFolder"))];
    if AtLeastEight(Lookup(data, "drupalVersion")) && Empty(uuid) then Altered(altered, Some(ValidationFailed([MissingUuid])))
    else Altered(altered, None)
  }

  // ---------------------------------------------------------------------------
  // Dumps.

  /** The options of `sql-dump`: the skipped tables (when the setting is truthy), then `--gzip` when zipped. */
  function DumpOptions(host: map<string, Value>, skipTables: Value): string
  {
    var structure := if !Empty(skipTables) then " --structure-tables-list=" + Join(Strings(skipTables), ",") else "";
    if !Empty(Lookup(host, "supportsZippedBackups")) then structure + " --gzip" else structure
  }

  /** The file `backupSQL` reports: the dump's name, with `.gz` when backups are zipped. */
  function DumpFile(host: map<string, Value>, name: string): string
  {
    if !Empty(Lookup(host, "supportsZippedBackups")) then name + ".gz" else name
  }

  function RemoveFile(file: string): string
  {
    "rm -f " + file
  }

  function DumpCommand(options: string, name: string): string
  {
    "#!drush sql-dump " + options + " --result-file=" + name
  }

  /** What `backupSQL` does, given whether the dump's directory exists. */
  function BackupSqlOps(host: map<string, Value>, skipTables: Value, name: string, dirExists: bool): seq<Op>
  {
    var prepare := if dirExists then [ChangedDir(Text(host, "siteFolder")), Probed(Dirname(name))]
                   else [ChangedDir(Text(host, "siteFolder")), Probed(Dirname(name)), Ran(MakeDir(Dirname(name)))];
    prepare + [Ran(RemoveFile(DumpFile(host, name))), Ran(DumpCommand(DumpOptions(host, skipTables), name))]
  }

  /**
   * A dump creates its directory exactly when it is missing, removes the file
   * it then reports, and writes the dump last.
   */
  lemma DumpShape(host: map<string, Value>, skipTables: Value, name: string, dirExists: bool)
    ensures var ops := BackupSqlOps(host, skipTables, name, dirExists);
            (Ran(MakeDir(Dirname(name))) in ops <==> !dirExists) &&
            ops[|ops| - 2] == Ran(RemoveFile(DumpFile(host, name))) &&
            ops[|ops| - 1] == Ran(DumpCommand(DumpOptions(host, skipTables), name))
  {
    var ops := BackupSqlOps(host, skipTables, name, dirExists);
    var mkdir := MakeDir(Dirname(name));
    assert mkdir[1] == 'k';
    assert RemoveFile(DumpFile(host, name))[1] == 'm';
    assert DumpCommand(DumpOptions(host, skipTables), name)[1] == '!';
    if dirExists {
      assert ops[2] != Ran(mkdir) && ops[3] != Ran(mkdir);
    } else {
      assert ops[2] == Ran(mkdir);
    }
  }

  /** `backupSQL`: dump the database into `name` and report the file written. */
  method BackupSql(host: map<string, Value>, skipTables: Value, shell: Shell, name: string) returns (file: string)
    modifies shell`log, shell`workingDir
    ensures file == DumpFile(host, name)
    ensures shell.log == old(shell.log) + BackupSqlOps(host, skipTables, name, shell.present(|old(shell.log)| + 1, Dirname(name)))
  {
    shell.Cd(Text(host, "siteFolder"));
    var options := "";
    if !Empty(skipTables) {
      options := " --structure-tables-list=" + Join(Strings(skipTables), ",");
    }
    var dirFound := shell.Exists(Dirname(name));
    ghost var prepare: seq<Op>;
    if !dirFound {
      var _ := shell.Run(MakeDir(Dirname(name)));
      prepare := [ChangedDir(Text(host, "siteFolder")), Probed(Dirname(name)), Ran(MakeDir(Dirname(name)))];
      AppendThree(old(shell.log), prepare[0], prepare[1], prepare[2]);
    } else {
      prepare := [ChangedDir(Text(host, "siteFolder")), Probed(Dirname(name))];
      AppendTwo(old(shell.log), prepare[0], prepare[1]);
    }
    ghost var prepared := shell.log;
    if !Empty(Lookup(host, "supportsZippedBackups")) {
      file := name + ".gz";
      var _ := shell.Run(RemoveFile(file));
      options := options + " --gzip";
    } else {
      file := name;
      var _ := shell.Run(RemoveFile(file));
    }
    var _ := shell.Run(DumpCommand(options, name));
    AppendTwo(prepared, Ran(RemoveFile(file)), Ran(DumpCommand(options, name)));
    AppendAssoc(old(shell.log), prepare, [Ran(RemoveFile(file)), Ran(DumpCommand(options, name))]);
  }

  /** The loose `in_array('db', $what)` on the context's `what`. */
  predicate WantsDb(vars: map<string, Value>)
  {
    InArray("db", VarOr(vars, "what", List([])))
  }

  /** The dump name `backup` derives from the backup's `basename` parts. */
  function BackupName(host: map<string, Value>, results: map<string, Value>): string
  {
    Text(host, "backupFolder") + "/" + Join(Strings(ResultOr(results, "basename", Null)), "--") + ".sql"
  }

  /**
   * The directory `backup` probes and creates is the backup folder with its
   * trailing slashes removed ("/" when only slashes are left), as long as
   * the basename parts hold no slash.
   */
  lemma BackupDirectory(host: map<string, Value>, results: map<string, Value>)
    requires forall k :: 0 <= k < |Join(Strings(ResultOr(results, "basename", Null)), "--")| ==>
               Join(Strings(ResultOr(results, "basename", Null)), "--")[k] != '/'
    ensures var folder := TrimTrailingSlashes(Text(host, "backupFolder"));
            Dirname(BackupName(host, results)) == if folder == [] then "/" else folder
  {
    var base := Join(Strings(ResultOr(results, "basename", Null)), "--");
    var file := base + ".sql";
    assert forall k :: 0 <= k < |file| ==> file[k] != '/' by {
      forall k | 0 <= k < |file| ensures file[k] != '/' {
        if k >= |base| { assert file[k] == ".sql"[k - |base|]; }
      }
    }
    assert BackupName(host, results) == Text(host, "backupFolder") + "/" + file;
    DirnameOfJoin(Text(host, "backupFolder"), "/", file);
  }

  /** A `backupFolder` with a trailing slash: the dump name has a doubled slash, the directory has none. */
  lemma BackupDirectoryTrailingSlash()
    ensures Dirname("/var/backups/" + "/" + "db.sql") == "/var/backups"
  {
    DirnameOfJoin("/var/backups/", "/", "db.sql");
    TrimTrailingSlashesOf("/var/backups", "/");
    assert "/var/backups" + "/" == "/var/backups/";
  }

  function FileEntry(kind: string, file: Value): Value
  {
    Dict(map["type" := Str(kind), "file" := file])
  }

  /** `backup`: only when `db` is wanted; the dump is reported under `files`. */
  method Backup(host: map<string, Value>, ctx: TaskContext, shell: Shell, skipTables: Value)
    modifies shell`log, shell`workingDir, ctx`results
    ensures !WantsDb(ctx.vars) ==> shell.log == old(shell.log) && ctx.results == old(ctx.results)
    ensures WantsDb(ctx.vars) ==>
              var name := BackupName(host, old(ctx.results));
              shell.log == old(shell.log) + BackupSqlOps(host, skipTables, name, shell.present(|old(shell.log)| + 1, Dirname(name))) &&
              ctx.results == Appended(old(ctx.results), "files", [FileEntry("db", Str(DumpFile(host, name)))])
  {
    if !WantsDb(ctx.vars) {
      return;
    }
    var name := BackupName(host, ctx.results);
    var file := BackupSql(host, skipTables, shell, name);
    ctx.AddResult("files", [FileEntry("db", Str(file))]);
  }

  // ---------------------------------------------------------------------------
  // Restores.

  /**
   * `importSqlFromFile` reads the extension as `substr($file, strrpos($file, '.') + 1)`.
   * Without a dot `strrpos` is false, which counts as 0, so the "extension" is
   * everything after the first character.
   */
  function Extension(file: string): string
  {
    match LastIndexOfChar(file, '.')
    case Some(i) => file[i + 1..]
    case None => if file == [] then [] else file[1..]
  }

  predicate Gzipped(file: string)
  {
    Extension(file) == "gz"
  }

  /** A file with a dot is read as gzipped exactly when its name ends in `.gz`. */
  lemma GzippedIffGzSuffix(file: string)
    requires LastIndexOfChar(file, '.').Some?
    ensures Gzipped(file) <==> |file| >= 3 && file[|file| - 3..] == ".gz"
  {
    var i := LastIndexOfChar(file, '.').value;
    LastIndexOfCharFinds(file, '.');
    if |file| >= 3 && file[|file| - 3..] == ".gz" {
      var j := |file| - 3;
      assert file[j] == file[j..][0] == '.';
      assert file[j + 1] == file[j..][1] == 'g';
      assert file[j + 2] == file[j..][2] == 'z';
      assert i == j;
      assert file[i + 1..] == file[j..][1..];
    }
    if Gzipped(file) {
      assert file[i + 1..] == "gz";
      assert file[|file| - 3..] == [file[i]] + file[i + 1..];
    }
  }

  /** As written, a dotless name whose tail after the first character is `gz` is taken for a gzipped dump. */
  lemma DotlessNameReadAsGzipped()
    ensures Gzipped("xgz")
  {
    LastIndexOfCharFinds("xgz", '.');
    assert "xgz"[0] != '.' && "xgz"[1] != '.' && "xgz"[2] != '.';
    assert LastIndexOfChar("xgz", '.').None?;
  }

  function ImportCommand(file: string): string
  {
    if Gzipped(file) then "#!gunzip -c " + file + " | $(#!drush sql-connect)" else "#!drush sql-cli < " + file
  }

  /** `importSqlFromFile`: optionally drop the database, then import the dump. */
  method ImportSqlFromFile(shell: Shell, file: string, dropDb: bool) returns (r: CommandResult)
    modifies shell`log
    ensures !dropDb ==> shell.log == old(shell.log) + [Ran(ImportCommand(file))] &&
                        r == shell.answer(|old(shell.log)|, ImportCommand(file))
    ensures dropDb ==> shell.log == old(shell.log) + [Ran(SqlDrop), Ran(ImportCommand(file))] &&
                       r == shell.answer(|old(shell.log)| + 1, ImportCommand(file))
  {
    if dropDb {
      var _ := shell.Run(SqlDrop);
    }
    if Gzipped(file) {
      r := shell.Run("#!gunzip -c " + file + " | $(#!drush sql-connect)");
    } else {
      r := shell.Run("#!drush sql-cli < " + file);
    }
  }

  datatype Restored = Restored(log: seq<Op>, results: map<string, Value>, err: Option<Error>)

  /**
   * A backup-set entry `restore` imports: its `type` equals `'db'` under PHP
   * 7's loose comparison, where a string compares as text, `true` equals any
   * non-empty string and `0` equals a string that does not start with a number.
   */
  predicate IsDbEntry(elem: Value)
  {
    LooselyEqualsWord("db", Field(elem, "type"))
  }

  /** The entries of a backup set `restore` imports, in order. */
  function DbEntries(backupSet: seq<Value>): (r: seq<Value>)
    ensures |r| <= |backupSet|
    ensures forall k :: 0 <= k < |r| ==> IsDbEntry(r[k]) && r[k] in backupSet
  {
    if backupSet == [] then []
    else if IsDbEntry(backupSet[0]) then [backupSet[0]] + DbEntries(backupSet[1..])
    else DbEntries(backupSet[1..])
  }

  function RestorePath(folder: string, elem: Value): string
  {
    folder + "/" + ToStr(Field(elem, "file"))
  }

  /** The import `restore` runs for an entry of the backup set. */
  function RestoreImport(folder: string, elem: Value): string
  {
    ImportCommand(RestorePath(folder, elem))
  }

  /** `RestoreImport` for the entries of one backup folder. */
  function RestoreCommand(folder: string): Value -> string
  {
    elem => RestoreImport(folder, elem)
  }

  /** What `restore` reports under `files` for an imported entry. */
  function Imported(elem: Value): Value
  {
    FileEntry("db", Field(elem, "file"))
  }

  function RestoreFailed(elem: Value): Error
  {
    FailedShellCommand("Could not restore backup from " + ToStr(Field(elem, "file")))
  }

  /** The loop of `restore` over the `db` entries of the set, running `command` for each until one fails. */
  function RestoreSpec(answer: Answer, command: Value -> string, entries: seq<Value>, log: seq<Op>,
                       results: map<string, Value>): Restored
    decreases |entries|
  {
    if entries == [] then Restored(log, results, None)
    else
      var log' := log + [Ran(command(entries[0]))];
      if answer(|log|, command(entries[0])).Failed() then Restored(log', results, Some(RestoreFailed(entries[0])))
      else RestoreSpec(answer, command, entries[1..], log', Appended(results, "files", [Imported(entries[0])]))
  }

  function RestoreCommands(command: Value -> string, entries: seq<Value>): (r: seq<string>)
    ensures |r| == |entries|
    ensures forall k :: 0 <= k < |entries| ==> r[k] == command(entries[k])
  {
    if entries == [] then [] else [command(entries[0])] + RestoreCommands(command, entries[1..])
  }

  function ImportedAll(entries: seq<Value>): (r: seq<Value>)
    ensures |r| == |entries|
    ensures forall k :: 0 <= k < |entries| ==> r[k] == Imported(entries[k])
  {
    if entries == [] then [] else [Imported(entries[0])] + ImportedAll(entries[1..])
  }

  /** A restore that completes runs one import per entry, in order. */
  lemma {:induction false} RestoreImportsEach(answer: Answer, command: Value -> string, entries: seq<Value>, log: seq<Op>,
                                              results: map<string, Value>)
    requires RestoreSpec(answer, command, entries, log, results).err.None?
    ensures RestoreSpec(answer, command, entries, log, results).log == log + RanOps(RestoreCommands(command, entries))
    decreases |entries|
  {
    if entries != [] {
      var c := command(entries[0]);
      RestoreImportsEach(answer, command, entries[1..], log + [Ran(c)], Appended(results, "files", [Imported(entries[0])]));
      RanOpsCons(c, RestoreCommands(command, entries[1..]));
      AppendCons(log, Ran(c), RanOps(RestoreCommands(command, entries[1..])));
    }
  }

  /** A restore that completes reports every entry under `files`, after what was there. */
  lemma {:induction false} RestoreReportsEach(answer: Answer, command: Value -> string, entries: seq<Value>, log: seq<Op>,
                                              results: map<string, Value>)
    requires entries != []
    requires RestoreSpec(answer, command, entries, log, results).err.None?
    ensures RestoreSpec(answer, command, entries, log, results).results == Appended(results, "files", ImportedAll(entries))
    decreases |entries|
  {
    var entry := Imported(entries[0]);
    if |entries| == 1 {
      assert ImportedAll(entries) == [entry];
    } else {
      RestoreReportsEach(answer, command, entries[1..], log + [Ran(command(entries[0]))], Appended(results, "files", [entry]));
      AppendedAccumulates(results, "files", [entry], ImportedAll(entries[1..]));
    }
  }

  /** The position among `entries` of the first import that fails, or `|entries|` when none does; `n` is the log length before it. */
  function FirstFailure(answer: Answer, command: Value -> string, entries: seq<Value>, n: nat): (k: nat)
    ensures k <= |entries|
    decreases |entries|
  {
    if entries == [] || answer(n, command(entries[0])).Failed() then 0
    else 1 + FirstFailure(answer, command, entries[1..], n + 1)
  }

  /** Every import before the first failure succeeds, and the one at it fails. */
  lemma {:induction false} FirstFailureIsFirst(answer: Answer, command: Value -> string, entries: seq<Value>, n: nat)
    ensures var k := FirstFailure(answer, command, entries, n);
            (forall j :: 0 <= j < k ==> answer(n + j, command(entries[j])).Succeeded()) &&
            (k < |entries| ==> answer(n + k, command(entries[k])).Failed())
    decreases |entries|
  {
    if entries != [] && !answer(n, command(entries[0])).Failed() {
      FirstFailureIsFirst(answer, command, entries[1..], n + 1);
      var k := FirstFailure(answer, command, entries, n);
      assert forall j :: 0 < j < k ==> entries[1..][j - 1] == entries[j] && n + 1 + (j - 1) == n + j;
    }
  }

  /** A restore fails iff some import fails, and it raises for the first entry whose import fails. */
  lemma {:induction false} RestoreFailsAtFirstFailure(answer: Answer, command: Value -> string, entries: seq<Value>,
                                                      log: seq<Op>, results: map<string, Value>)
    ensures var k := FirstFailure(answer, command, entries, |log|);
            var out := RestoreSpec(answer, command, entries, log, results);
            (out.err.Some? <==> k < |entries|) && (k < |entries| ==> out.err == Some(RestoreFailed(entries[k])))
    decreases |entries|
  {
    if entries != [] && !answer(|log|, command(entries[0])).Failed() {
      var log' := log + [Ran(command(entries[0]))];
      RestoreFailsAtFirstFailure(answer, command, entries[1..], log', Appended(results, "files", [Imported(entries[0])]));
      var k' := FirstFailure(answer, command, entries[1..], |log'|);
      assert k' < |entries| - 1 ==> entries[1..][k'] == entries[k' + 1];
    }
  }

  /** A restore that fails has run the imports up to and including the failing one, and nothing after it. */
  lemma {:induction false} RestoreRunsUpToFailure(answer: Answer, command: Value -> string, entries: seq<Value>, log: seq<Op>,
                                                  results: map<string, Value>)
    requires FirstFailure(answer, command, entries, |log|) < |entries|
    ensures var k := FirstFailure(answer, command, entries, |log|);
            RestoreSpec(answer, command, entries, log, results).log == log + RanOps(RestoreCommands(command, entries[..k + 1]))
    decreases |entries|
  {
    var c := command(entries[0]);
    var k := FirstFailure(answer, command, entries, |log|);
    if answer(|log|, c).Failed() {
      assert entries[..1] == [entries[0]];
    } else {
      var log' := log + [Ran(c)];
      RestoreRunsUpToFailure(answer, command, entries[1..], log', Appended(results, "files", [Imported(entries[0])]));
      assert entries[..k + 1] == [entries[0]] + entries[1..][..k];
      RanOpsCons(c, RestoreCommands(command, entries[1..][..k]));
      AppendCons(log, Ran(c), RanOps(RestoreCommands(command, entries[1..][..k])));
    }
  }

  /** The loop of `restore` as written, from position `i` of the set, skipping entries that are not `db` dumps. */
  function RestoreLoop(answer: Answer, folder: string, backupSet: seq<Value>, i: nat, log: seq<Op>,
                       results: map<string, Value>): Restored
    requires i <= |backupSet|
    decreases |backupSet| - i
  {
    if i == |backupSet| then Restored(log, results, None)
    else if !IsDbEntry(backupSet[i]) then RestoreLoop(answer, folder, backupSet, i + 1, log, results)
    else
      var log' := log + [Ran(RestoreImport(folder, backupSet[i]))];
      if answer(|log|, RestoreImport(folder, backupSet[i])).Failed() then Restored(log', results, Some(RestoreFailed(backupSet[i])))
      else RestoreLoop(answer, folder, backupSet, i + 1, log', Appended(results, "files", [Imported(backupSet[i])]))
  }

  /** Skipping the other entries, the loop is the import of the `db` entries. */
  lemma {:induction false} RestoreLoopImportsDbEntries(answer: Answer, folder: string, backupSet: seq<Value>,
                                                       i: nat, log: seq<Op>, results: map<string, Value>)
    requires i <= |backupSet|
    ensures RestoreLoop(answer, folder, backupSet, i, log, results) ==
            RestoreSpec(answer, RestoreCommand(folder), DbEntries(backupSet[i..]), log, results)
    decreases |backupSet| - i
  {
    if i < |backupSet| {
      var elem := backupSet[i];
      var command := RestoreImport(folder, elem);
      assert backupSet[i..][0] == elem && backupSet[i..][1..] == backupSet[i + 1..];
      assert RestoreCommand(folder)(elem) == command;
      if !IsDbEntry(elem) {
        RestoreLoopImportsDbEntries(answer, folder, backupSet, i + 1, log, results);
      } else if !answer(|log|, command).Failed() {
        RestoreLoopImportsDbEntries(answer, folder, backupSet, i + 1, log + [Ran(command)],
                                    Appended(results, "files", [Imported(elem)]));
      }
    }
  }

  /** `restore`: only when `db` is wanted; imports the set's `db` entries until one fails. */
  method Restore(host: map<string, Value>, ctx: TaskContext, shell: Shell) returns (err: Option<Error>)
    modifies shell`log, ctx`results
    ensures !WantsDb(ctx.vars) ==> err.None? && shell.log == old(shell.log) && ctx.results == old(ctx.results)
    ensures WantsDb(ctx.vars) ==>
              Restored(shell.log, ctx.results, err) ==
              RestoreLoop(shell.answer, Text(host, "backupFolder"),
                          Items(VarOr(ctx.vars, "backup_set", List([]))), 0, old(shell.log), old(ctx.results))
  {
    if !WantsDb(ctx.vars) {
      return None;
    }
    var folder := Text(host, "backupFolder");
    var backupSet := Items(ctx.Get("backup_set", List([])));
    ghost var goal := RestoreLoop(shell.answer, folder, backupSet, 0, shell.log, ctx.results);
    var i := 0;
    while i < |backupSet|
      invariant 0 <= i <= |backupSet|
      invariant RestoreLoop(shell.answer, folder, backupSet, i, shell.log, ctx.results) == goal
    {
      var elem := backupSet[i];
      if !IsDbEntry(elem) {
        i := i + 1;
        continue;
      }
      var result := ImportSqlFromFile(shell, RestorePath(folder, elem), false);
      if result.Failed() {
        return Some(RestoreFailed(elem));
      }
      ctx.AddResult("files", [Imported(elem)]);
      i := i + 1;
    }
    err := None;
  }


  // Modules.

  /** `array_filter($lines, 'trim')`: the lines whose trimmed text is truthy. */
  function NonBlank(lines: seq<string>): (r: seq<string>)
  {
    if lines == [] then []
    else if TruthyString(Trim(lines[0])) then [lines[0]] + NonBlank(lines[1..])
    else NonBlank(lines[1..])
  }

  /** `array_diff($xs, $ignore)` */
  function Without(xs: seq<string>, ignore: seq<string>): (r: seq<string>)
  {
    if xs == [] then []
    else if InList(xs[0], ignore) then Without(xs[1..], ignore)
    else [xs[0]] + Without(xs[1..], ignore)
  }

  /** The modules `handleModules` passes to drush. */
  function ModuleList(lines: seq<string>, ignore: seq<string>): seq<string>
  {
    Without(NonBlank(lines), ignore)
  }

  lemma InListCons(m: string, x: string, xs: seq<string>)
    ensures InList(m, [x] + xs) <==> m == x || InList(m, xs)
  {
    if InList(m, xs) {
      var k :| 0 <= k < |xs| && xs[k] == m;
      assert ([x] + xs)[k + 1] == m;
    }
    if InList(m, [x] + xs) && m != x {
      var k :| 0 <= k < |xs| + 1 && ([x] + xs)[k] == m;
      assert xs[k - 1] == m;
    }
    assert ([x] + xs)[0] == x;
  }

  /** The lines `array_filter($lines, 'trim')` keeps are the non-blank ones. */
  lemma {:induction false} NonBlankMembers(lines: seq<string>, m: string)
    ensures InList(m, NonBlank(lines)) <==> InList(m, lines) && TruthyString(Trim(m))
    decreases |lines|
  {
    if lines != [] {
      NonBlankMembers(lines[1..], m);
      assert lines == [lines[0]] + lines[1..];
      InListCons(m, lines[0], lines[1..]);
      if TruthyString(Trim(lines[0])) {
        InListCons(m, lines[0], NonBlank(lines[1..]));
      }
    }
  }

  /** `array_diff` keeps exactly the entries that are not ignored. */
  lemma {:induction false} WithoutMembers(xs: seq<string>, ignore: seq<string>, m: string)
    ensures InList(m, Without(xs, ignore)) <==> InList(m, xs) && !InList(m, ignore)
    decreases |xs|
  {
    if xs != [] {
      WithoutMembers(xs[1..], ignore, m);
      assert xs == [xs[0]] + xs[1..];
      InListCons(m, xs[0], xs[1..]);
      if !InList(xs[0], ignore) {
        InListCons(m, xs[0], Without(xs[1..], ignore));
      }
    }
  }

  /** A module is listed iff it is a non-blank line of the file that is not ignored. */
  lemma ModuleListMembers(lines: seq<string>, ignore: seq<string>, m: string)
    ensures InList(m, ModuleList(lines, ignore)) <==> InList(m, lines) && TruthyString(Trim(m)) && !InList(m, ignore)
  {
    WithoutMembers(NonBlank(lines), ignore, m);
    NonBlankMembers(lines, m);
  }

  /** The setting holding the modules `handleModules` must leave alone. */
  function IgnoreKey(enable: bool): string
  {
    if enable then "modulesEnabledIgnore" else "modulesDisabledIgnore"
  }

  function ModulesCommand(enable: bool, modules: seq<string>): string
  {
    "#!drush " + (if enable then "en -y " else "dis -y ") + Join(modules, " ")
  }

  /** `handleModules`: nothing when the list file is absent; otherwise enable or disable the listed modules. */
  method HandleModules(host: map<string, Value>, settings: map<string, Value>, shell: Shell, fileName: string, enable: bool)
    modifies shell`log
    ensures var file := Text(host, "rootFolder") + "/" + fileName;
            var cat := "cat " + file;
            if !shell.present(|old(shell.log)|, file) then shell.log == old(shell.log) + [Probed(file)]
            else shell.log == old(shell.log) + [Probed(file), Ran(cat),
                   Ran(ModulesCommand(enable, ModuleList(shell.answer(|old(shell.log)| + 1, cat).output,
                                                         Strings(Lookup(settings, IgnoreKey(enable))))))]
  {
    var file := Text(host, "rootFolder") + "/" + fileName;
    var found := shell.Exists(file);
    if !found {
      return;
    }
    var content := shell.Run("cat " + file);
    var modules := NonBlank(content.output);
    var toIgnore := Strings(Lookup(settings, IgnoreKey(enable)));
    if |toIgnore| > 0 {
      modules := Without(modules, toIgnore);
    } else {
      WithoutNothing(modules);
    }
    var _ := shell.Run(ModulesCommand(enable, modules));
  }

  lemma {:induction false} WithoutNothing(xs: seq<string>)
    ensures Without(xs, []) == xs
  {
    if xs != [] {
      WithoutNothing(xs[1..]);
    }
  }

  // ---------------------------------------------------------------------------
  // Core update.

  /** PHP 7's `%d` of a configuration value: a string reads as its number, an array as 1 unless empty. */
  function AsInt(v: Value): int
  {
    match v
    case Int(i) => i
    case Bool(b) => if b then 1 else 0
    case Str(s) => StringToInt(s)
    case Null => 0
    case List(xs) => if xs == [] then 0 else 1
    case Dict(m) => if m == map[] then 0 else 1
  }

  /**
   * A Drupal version written as text is the version written as a number: it
   * is 8 or later exactly when the number is, and `--default-major` renders
   * the number.
   */
  lemma VersionAsText(i: int)
    ensures AtLeastEight(Str(IntToString(i))) <==> i >= 8
    ensures AsInt(Str(IntToString(i))) == i
    ensures DownloadCommand("d", Str(IntToString(i))) == DownloadCommand("d", Int(i))
  {
    StringToIntOfIntToString(i);
  }

  /** `'db'` loosely equals the int 0 and `true`, but neither `1` nor another word. */
  lemma DbLooseMatches()
    ensures IsDbEntry(Dict(map["type" := Int(0)])) && IsDbEntry(Dict(map["type" := Bool(true)]))
    ensures !IsDbEntry(Dict(map["type" := Int(1)])) && !IsDbEntry(Dict(map["type" := Str("files")]))
    ensures WantsDb(map["what" := List([Int(0)])]) && !WantsDb(map["what" := List([Str("files")])])
  {
    assert StringToInt("db") == 0 by {
      assert SkipNumberSpace("db") == "db";
      assert LeadingDigits("db") == 0;
    }
    assert List([Int(0)]).items[0] == Int(0);
  }

  function DownloadCommand(dir: string, version: Value): string
  {
    "#!drush dl --destination=\"" + dir + "\" --default-major=\"" + IntToString(AsInt(version)) + "\" drupal"
  }

  function FirstLine(r: CommandResult): string
  {
    if r.output == [] then "" else r.output[0]
  }

  function MakeDir(dir: string): string
  {
    "mkdir -p " + dir
  }

  function RemoveDir(dir: string): string
  {
    "rm -rf " + dir
  }

  /** Copies the downloaded drupal, whose folder the listing names first, over the root folder. */
  function SyncCommand(listing: CommandResult, rootFolder: string): string
  {
    "#!rsync -rav --no-o --no-g " + Trim(FirstLine(listing)) + "/* " + rootFolder
  }

  /** The scratch folder `appUpdate` downloads into. */
  function UpdateDir(host: map<string, Value>): string
  {
    Text(host, "tmpFolder") + "/drupal-update"
  }

  /** The download steps of `appUpdate`. */
  function DownloadOps(host: map<string, Value>): seq<Op>
  {
    var dir := UpdateDir(host);
    [Ran(RemoveDir(dir)), Ran(MakeDir(dir)), Ran(DownloadCommand(dir, Lookup(host, "drupalVersion")))]
  }

  /** The steps of `appUpdate` after a successful download, given the listing of the scratch folder. */
  function SyncOps(host: map<string, Value>, listing: CommandResult, pwd: string): seq<Op>
  {
    var dir := UpdateDir(host);
    [ChangedDir(dir), Ran("ls "),
     Ran(SyncCommand(listing, Text(host, "rootFolder"))),
     Ran(RemoveDir(dir)), ChangedDir(pwd)]
  }

  /**
   * An update downloads into the scratch folder it emptied first, syncs from
   * that folder, removes it again and returns to where it started.
   */
  lemma UpdateCleansUp(host: map<string, Value>, listing: CommandResult, pwd: string)
    ensures var ops := DownloadOps(host) + SyncOps(host, listing, pwd);
            var dir := UpdateDir(host);
            |ops| == 8 && ops[0] == ops[6] == Ran(RemoveDir(dir)) &&
            ops[2] == Ran(DownloadCommand(dir, Lookup(host, "drupalVersion"))) &&
            ops[3] == ChangedDir(dir) && ops[7] == ChangedDir(pwd)
  {
  }

  /** The download command names the scratch folder as its destination. */
  lemma DownloadsInto(dir: string, version: Value)
    ensures "#!drush dl --destination=\"" + dir + "\"" <= DownloadCommand(dir, version)
  {
    var head := "#!drush dl --destination=\"" + dir + "\"";
    var tail := " --default-major=\"" + IntToString(AsInt(version)) + "\" drupal";
    assert DownloadCommand(dir, version) == head + tail;
  }

  /** The steps of `appUpdate` after a successful download, from `pwd`. */
  method SyncDownload(host: map<string, Value>, pwd: string, shell: Shell)
    modifies shell`log, shell`workingDir
    ensures shell.workingDir == pwd
    ensures shell.log == old(shell.log) + SyncOps(host, shell.answer(|old(shell.log)| + 1, "ls "), pwd)
  {
    var dir := UpdateDir(host);
    shell.Cd(dir);
    var listing := shell.Run("ls ");
    var sync := SyncCommand(listing, Text(host, "rootFolder"));
    var _ := shell.Run(sync);
    var _ := shell.Run(RemoveDir(dir));
    shell.Cd(pwd);
    AppendFive(old(shell.log), ChangedDir(dir), Ran("ls "), Ran(sync), Ran(RemoveDir(dir)), ChangedDir(pwd));
  }

  /**
   * `appUpdate`: a composer-managed project is left to composer; otherwise
   * drupal is downloaded into a scratch folder and synced over the root folder.
   */
  method AppUpdate(host: map<string, Value>, shell: Shell) returns (err: Option<Error>)
    modifies shell`log, shell`workingDir
    ensures InList("composer", Needs(host)) ==> err.None? && shell.log == old(shell.log)
    ensures !InList("composer", Needs(host)) &&
            shell.answer(|old(shell.log)| + 2, DownloadCommand(UpdateDir(host), Lookup(host, "drupalVersion"))).Failed() ==>
              err == Some(Runtime(DownloadFailed)) && shell.log == old(shell.log) + DownloadOps(host)
    ensures !InList("composer", Needs(host)) &&
            !shell.answer(|old(shell.log)| + 2, DownloadCommand(UpdateDir(host), Lookup(host, "drupalVersion"))).Failed() ==>
              err.None? && shell.workingDir == old(shell.workingDir) &&
              shell.log == old(shell.log) + DownloadOps(host) +
                           SyncOps(host, shell.answer(|old(shell.log)| + 4, "ls "), old(shell.workingDir))
  {
    if InList("composer", Needs(host)) {
      return None;
    }
    var pwd := shell.GetWorkingDir();
    var dir := UpdateDir(host);
    var _ := shell.Run(RemoveDir(dir));
    var _ := shell.Run(MakeDir(dir));
    var result := shell.Run(DownloadCommand(dir, Lookup(host, "drupalVersion")));
    AppendThree(old(shell.log), Ran(RemoveDir(dir)), Ran(MakeDir(dir)),
                Ran(DownloadCommand(dir, Lookup(host, "drupalVersion"))));
    if result.Failed() {
      return Some(Runtime(DownloadFailed));
    }
    SyncDownload(host, pwd, shell);
    err := None;
  }

  // ---------------------------------------------------------------------------
  // Waiting for the database.

  function PingCommand(host: map<string, Value>): string
  {
    var db := Lookup(host, "database");
    "#!mysqladmin -u" + ToStr(Field(db, "user")) + " --password=" + ToStr(Field(db, "pass")) +
    " -h " + ToStr(Field(db, "host")) + " ping"
  }

  datatype Waited = Waited(log: seq<Op>, connected: Option<bool>)

  /**
   * `waitForDatabase` AS WRITTEN, followed for `steps` rounds of its loop: the
   * counter is never incremented, so the loop only ends on a successful ping.
   * `connected` is None while the loop is still running.
   */
  function WaitAsWritten(answer: Answer, command: string, log: seq<Op>, steps: nat): Waited
    decreases steps
  {
    if steps == 0 then Waited(log, None)
    else if answer(|log|, command).Succeeded() then Waited(log + [Ran(command)], Some(true))
    else WaitAsWritten(answer, command, log + [Ran(command)], steps - 1)
  }

  /** As written, a database that never answers keeps the loop pinging forever: it never gives up and never throws. */
  lemma {:induction false} AsWrittenNeverGivesUp(answer: Answer, command: string, log: seq<Op>, steps: nat)
    requires forall i :: answer(i, command).Failed()
    ensures WaitAsWritten(answer, command, log, steps).connected.None?
    ensures WaitAsWritten(answer, command, log, steps).log == log + RanOps(Repeated(command, steps))
    decreases steps
  {
    if steps > 0 {
      AsWrittenNeverGivesUp(answer, command, log + [Ran(command)], steps - 1);
      RanOpsCons(command, Repeated(command, steps - 1));
      AppendCons(log, Ran(command), RanOps(Repeated(command, steps - 1)));
    }
  }

  /** The corrected loop: at most `left` more pings; the last failure throws. */
  function WaitSpec(answer: Answer, command: string, log: seq<Op>, left: nat): Restored
    decreases left
  {
    if left == 0 then Restored(log, map[], Some(FailedShellCommand(NoDatabase)))
    else if answer(|log|, command).Succeeded() then Restored(log + [Ran(command)], map[], None)
    else WaitSpec(answer, command, log + [Ran(command)], left - 1)
  }

  /**
   * The corrected wait pings at most `left` times, and succeeds iff one of
   * those pings (at log positions `|log|` up to `|log| + left`) succeeds.
   */
  lemma {:induction false} WaitBounded(answer: Answer, command: string, log: seq<Op>, left: nat)
    ensures var out := WaitSpec(answer, command, log, left);
            exists n :: 0 <= n <= left && out.log == log + RanOps(Repeated(command, n))
    ensures var out := WaitSpec(answer, command, log, left);
            out.err.None? <==> exists j :: |log| <= j < |log| + left && answer(j, command).Succeeded()
    decreases left
  {
    var out := WaitSpec(answer, command, log, left);
    if left == 0 {
      assert out.log == log + RanOps(Repeated(command, 0));
    } else if answer(|log|, command).Succeeded() {
      assert RanOps(Repeated(command, 1)) == [Ran(command)];
      assert out.log == log + RanOps(Repeated(command, 1));
    } else {
      WaitBounded(answer, command, log + [Ran(command)], left - 1);
      var n :| 0 <= n <= left - 1 && out.log == log + [Ran(command)] + RanOps(Repeated(command, n));
      RanOpsCons(command, Repeated(command, n));
      AppendCons(log, Ran(command), RanOps(Repeated(command, n)));
      assert out.log == log + RanOps(Repeated(command, n + 1));
    }
  }

  /** A database that never answers: the as-written loop is still pinging after 11 rounds, the corrected one has thrown after 10. */
  lemma DeadDatabaseDiffers(command: string, log: seq<Op>)
    ensures var dead: Answer := (i, c) => CommandResult(1, []);
            WaitAsWritten(dead, command, log, MaxPings + 1).connected.None? &&
            WaitSpec(dead, command, log, MaxPings).err == Some(FailedShellCommand(NoDatabase))
  {
    var dead: Answer := (i, c) => CommandResult(1, []);
    AsWrittenNeverGivesUp(dead, command, log, MaxPings + 1);
    WaitBounded(dead, command, log, MaxPings);
  }

  /** `waitForDatabase`, with the retry counter incremented as intended. */
  method WaitForDatabase(host: map<string, Value>, shell: Shell) returns (err: Option<Error>)
    modifies shell`log
    ensures Restored(shell.log, map[], err) == WaitSpec(shell.answer, PingCommand(host), old(shell.log), MaxPings)
  {
    var command := PingCommand(host);
    var tries := 0;
    while tries < MaxPings
      invariant 0 <= tries <= MaxPings
      invariant WaitSpec(shell.answer, command, shell.log, MaxPings - tries) ==
                WaitSpec(shell.answer, command, old(shell.log), MaxPings)
    {
      var result := shell.Run(command);
      if result.Succeeded() {
        return None;
      }
      tries := tries + 1;
    }
    err := Some(FailedShellCommand(NoDatabase));
  }
}
