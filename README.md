# phabalicious: task dispatch, script interpreter, handlers and commands

phabalicious runs deployment and maintenance tasks (`deploy`, `backup`,
`restore`, `docker`, `composer`, ...) against hosts described in a fabfile.
A host lists the handlers ("methods") it `needs`. This model covers four parts:

- **The method factory.** A registry of handlers with a memoised
  name lookup. It runs a task through its phases: preflight on every need,
  `<task>Prepare`, `<task>` (or, when no handler implements it, the fallback
  of every need), each chained `runNextTasks` entry as a full task,
  `<task>Finished`, and postflight on every need. A task call runs on a
  clone of the context stamped with `currentMethod`. It goes to the handler
  that overrides the target, if any, and merges the clone's results back.
- **The script interpreter.** It expands placeholders and refuses a
  script that still holds a `%...%` placeholder. It then runs the lines in
  order. A callback line goes to a registered callback; any other line runs
  on the shell. The run stops at the first failed command while the
  interpreter's `breakOnFirstError` flag (object state) is set.
- **The handlers.** Docker, Git, Drush, FtpSync and Local each add
  configuration defaults and validation, plus the guarded command sequences
  that make up their tasks.
- **The console commands.** `list:backups` filters, sorts and tabulates
  backups. `composer` maps an early task exit to 1. The base options
  command checks required options, completes `--offline` values and
  defaults the fabfile argument.

How things are modelled:

- **Shell.** The shell is an object that appends every operation to a log:
  `cd`, a command, a probe, an upload, an environment, an inline script
  callback invoked. It answers commands from an oracle indexed by log
  position and probes from a presence oracle. Every handler operation is
  stated as the exact log it produces, given these oracles and the effects
  of the unseen code it calls; list settings are read as their items'
  string forms, and a dictionary where a list is expected reads as no
  items (see `Common.Strings` under "## Left out").
- **State changes.** Classes mirror the state the source changes in place:
  the factory's registry, lookup cache and invocation log, the task
  context's variables and results, and the interpreter's flag. Each method
  is proved equal to a pure specification function of the old state. The
  lemmas state the source's promises about those functions.
- **Unseen code.** Code these files call but do not contain is passed in as
  parameters, each with the contract stated where it is declared:
  - `Utilities` (expansion, data merging, callback extraction);
  - the configuration service, the password manager, the HTTP fetch;
  - `TaskContext` (`setResult` overwrites, `addResult` appends,
    `mergeResults` applies the clone's contributions);
  - the validation service.

The interpreter keeps two quirks of the code as written:

- The root-folder expression at `src/Method/ScriptMethod.php:59-63` is an
  unparenthesised nested ternary, which PHP 7 reads left-associatively. A
  site folder is therefore never chosen (`Scripts.DefaultRootFolder`,
  `Scripts.SiteFolderNeverChosen`).
- Environment values are expanded once; commands are expanded twice.

`supports` of every handler is the name test itself (`Supports` in each
handler's module). The Drush one is characterised by
`DrushMethod.SupportsExactly`.

## Model

| member | source | states |
|---|---|---|
| Dispatch.RegisteredReplacesByName | src/Method/MethodFactory.php:50-53 | registering a handler whose name is already registered replaces that entry in place, a new name is appended at the end, and names stay unique |
| Dispatch.MethodFactory.AddMethod | src/Method/MethodFactory.php:50-53 | the registry becomes the old registry with the handler registered under its name |
| Dispatch.FirstSupporting | src/Method/MethodFactory.php:69-76 | the handler found supports the name and no handler registered before it does; nothing is found exactly when no registered handler supports the name |
| Dispatch.RememberKeepsResolution | src/Method/MethodFactory.php:65-72 | caching a lookup changes the resolution of no name |
| Dispatch.CachedLookupSurvivesRegistration | src/Method/MethodFactory.php:65-72 | once a name has been resolved and cached, registering another handler does not change what that name resolves to |
| Dispatch.MethodFactory.GetMethod | src/Method/MethodFactory.php:63-77 | returns the cached handler, else the first supporting one (none is MethodNotFoundException), and caches a found handler |
| Dispatch.Subset | src/Method/MethodFactory.php:261-266 | succeeds exactly when every need resolves, and then returns each need's handler in order |
| Dispatch.MethodFactory.GetSubset | src/Method/MethodFactory.php:261-266 | returns the subset and changes no name's resolution |
| Dispatch.CloneFor | src/Method/MethodFactory.php:170-178 | the clone keeps the caller's results and every variable, except that `currentMethod` names the called handler |
| Dispatch.MethodFactory.Perform | src/Method/MethodFactory.php:187 | one handler invocation is logged and its effect on the context is applied |
| Dispatch.MethodFactory.Preflight | src/Method/MethodFactory.php:232-242 | runs the hook on each need's handler in order, stopping at the first unresolved need or raised exception |
| Dispatch.MethodFactory.CallImpl | src/Method/MethodFactory.php:163-194 | equals the call specification: override scan, clone, invocation and merge, or TaskNotFoundInMethod on the mandatory path |
| Dispatch.MethodFactory.RunTaskImpl | src/Method/MethodFactory.php:125-150 | equals the phase specification, whose calls CallEachCallsEachClaim and FallbackIffUnclaimed state: the task on every need that implements it, need by need, else the fallback of every need when allowed |
| Dispatch.MethodFactory.RunTask | src/Method/MethodFactory.php:91-112 | equals the run specification over the registry, cache, log and context |
| Dispatch.MethodFactory.RunChain | src/Method/MethodFactory.php:102-107 | runs each chained task as a full task with no next tasks, in list order |
| Dispatch.MethodFactory.Call | src/Method/MethodFactory.php:208-220 | equals the call specification: resolve, preflight, mandatory call, postflight |
| DispatchProperties.VisitExtends | src/Method/MethodFactory.php:238-241 | a hook loop only appends to the log and keeps every name's resolution |
| DispatchProperties.VisitLogsEachNeed | src/Method/MethodFactory.php:238-241 | a hook loop that completes appends exactly one hook call per need, to that need's handler, in needs order |
| DispatchProperties.VisitSegment | src/Method/MethodFactory.php:238-241 | a completed hook loop's log is the old log plus one hook call per need |
| DispatchProperties.VisitLogsHookOnly | src/Method/MethodFactory.php:238-241 | every call a hook loop logs is that hook on that task |
| DispatchProperties.ScanKeepsResolution | src/Method/MethodFactory.php:172-176 | the override scan changes no name's resolution |
| DispatchProperties.ScanResolvesAll | src/Method/MethodFactory.php:172-176 | a completed override scan resolved every need |
| DispatchProperties.ScanOverriddenIff | src/Method/MethodFactory.php:172-176 | a name is in the override map exactly when some need's handler overrides it |
| DispatchProperties.ScanLastWinsAt | src/Method/MethodFactory.php:172-176 | the override map entry for a name is the last need whose handler overrides that name |
| DispatchProperties.LastOverriderUnique | src/Method/MethodFactory.php:172-176 | there is only one last overrider of a name |
| DispatchProperties.CallImplLogsOneCall | src/Method/MethodFactory.php:177-188 | a task call logs at most one invocation: the task hook on the task, attributed to the original handler's name |
| DispatchProperties.CallImplIsolation | src/Method/MethodFactory.php:170-193 | the caller's variables never change; its results change only when the task ran without exception; a completed mandatory call logs exactly one invocation |
| DispatchProperties.CallImplRunsLastOverride | src/Method/MethodFactory.php:172-183 | the invoked handler is the one named by the last need overriding the target, or the target itself when none overrides it |
| DispatchProperties.CallImplRaisesOrMerges | src/Method/MethodFactory.php:186-188 | the call raises what the invoked task raised, and otherwise merges the clone's results into the caller's |
| DispatchProperties.OnlyMandatoryCallRaisesTaskNotFound | src/Method/MethodFactory.php:186-193 | the optional and mandatory paths differ only when the implementation lacks the task: then the mandatory one raises TaskNotFoundInMethod and the optional one changes nothing |
| DispatchProperties.CallEachLogs | src/Method/MethodFactory.php:137-143 | the implementing loop only appends task-hook calls on the task |
| DispatchProperties.CallEachResolves | src/Method/MethodFactory.php:137-138 | a completed implementing loop resolved every need |
| DispatchProperties.CallEachClaims | src/Method/MethodFactory.php:137-142 | `fn_called` ends true exactly when some need's handler implements the task |
| DispatchProperties.ClaimCall | src/Method/MethodFactory.php:137-143 | a need adds no call unless its handler implements the task; at most one task call, attributed to that handler; exactly one, on that handler, when no need overrides it |
| DispatchProperties.CallImplMakesClaimCall | src/Method/MethodFactory.php:163-193 | `callImpl` on the optional path adds the claim call: the task run by the last overrider (or the handler), none when that implementer lacks the task |
| DispatchProperties.CallEachCallsEachClaim | src/Method/MethodFactory.php:137-143 | a completed implementing loop adds exactly the claim calls of the needs, need by need in needs order, a repeated need called again |
| DispatchProperties.CallEachQuiet | src/Method/MethodFactory.php:137-143 | when no handler implements the task, the loop leaves log and context unchanged |
| DispatchProperties.TaskImplExtends | src/Method/MethodFactory.php:125-150 | a task phase only appends to the log and keeps resolutions |
| DispatchProperties.FallbackIffUnclaimed | src/Method/MethodFactory.php:137-149 | a phase logs only task or (when allowed) fallback calls on the task; fallback runs on every need in order exactly when allowed and no need implements the task; otherwise the calls are the claim calls of the needs in order |
| DispatchProperties.TaskImplSegment | src/Method/MethodFactory.php:125-150 | a completed phase's log is the old log plus task or allowed fallback calls |
| DispatchProperties.TaskImplCalls | src/Method/MethodFactory.php:125-150 | a completed phase adds the claim calls of the needs in order, or, when allowed and unclaimed, the fallback on every need in order |
| DispatchProperties.RunTaskExtends | src/Method/MethodFactory.php:91-112 | a task run only appends to the log and keeps resolutions |
| DispatchProperties.ChainExtends | src/Method/MethodFactory.php:102-107 | the chained runs only append to the log and keep resolutions |
| DispatchProperties.ChainSegment | src/Method/MethodFactory.php:102-107 | the chained runs' log extends the old one |
| DispatchProperties.RunTaskPhases | src/Method/MethodFactory.php:97-111 | with `runNextTasks` seeded to the next tasks, a completed run is preflight on every need, the `Prepare` phase, the main phase (with fallback), the chained tasks read from the results the main phase left, the `Finished` phase and postflight on every need, each phase starting from the world the previous one left and adding its own log segment |
| DispatchProperties.ChainRunsEachInOrder | src/Method/MethodFactory.php:95-107 | each chained task runs as a complete run with no next tasks, in list order, each on the state the previous one left |
| DispatchProperties.CallRunsHooksAroundOneCall | src/Method/MethodFactory.php:208-220 | a completed call logs preflight on every need, one task call attributed to the resolved handler, then postflight on every need |
| Scripts.DefaultConfig | src/Method/ScriptMethod.php:30-35 | the defaults hold only the root folder, set to the fabfile's path |
| Scripts.ValidateConfig | src/Method/ScriptMethod.php:37-41 | there is no issue exactly when `rootFolder` is set, and otherwise one error on it |
| Scripts.DefaultRootFolder | src/Method/ScriptMethod.php:59-63 | a truthy site folder yields the root folder, a falsy one `.`; without a site folder, the root folder if set, else `.` |
| Scripts.SiteFolderNeverChosen | src/Method/ScriptMethod.php:59-63 | a site folder other than the root folder and `.` is never the result; a truthy one yields the root folder |
| Scripts.AsStringParameter | src/Method/ScriptMethod.php:131 | a string root folder is passed as is; null or an array is a type error |
| Scripts.ScanPlaceholderFindsMatch | src/Method/ScriptMethod.php:182 | the scanner accepts from a position exactly when `%\S*%` matches there |
| Scripts.MatchesPlaceholder | src/Method/ScriptMethod.php:182 | a line matches exactly when it contains `%`, non-space characters, `%` |
| Scripts.FirstUnresolved | src/Method/ScriptMethod.php:179-187 | returns the first line holding a placeholder; nothing exactly when no line holds one |
| Scripts.WithBuiltins | src/Method/ScriptMethod.php:80-86 | the four built-in callbacks replace user callbacks of the same name; every other user callback is kept |
| Scripts.CallbackSpec | src/Method/ScriptMethod.php:208-213 | a handled callback is logged with its arguments; a user callback's exception is raised and its changes to the context's variables and results are kept; only the two flag callbacks change the flag; no built-in touches the results |
| Scripts.Prepare | src/Method/ScriptMethod.php:51-78 | commands are expanded twice and environment values once, with the same replacement table; the host environment is merged in when non-empty; the context root folder wins over the default |
| Scripts.TaskScript | src/Method/ScriptMethod.php:288-298 | the old `common[type]` layout yields no script; otherwise `common[task][type]` is run exactly when it is non-empty |
| Scripts.ScriptMethod.constructor | src/Method/ScriptMethod.php:18 | `breakOnFirstError` starts true |
| Scripts.ScriptMethod.GetBreakOnFirstError | src/Method/ScriptMethod.php:267-270 | returns the flag |
| Scripts.ScriptMethod.SetBreakOnFirstError | src/Method/ScriptMethod.php:275-278 | sets the flag |
| Scripts.ScriptMethod.ValidateReplacements | src/Method/ScriptMethod.php:179-187 | returns the first unresolved line |
| Scripts.ScriptMethod.HandleFailOnErrorCallback | src/Method/ScriptMethod.php:246-250 | sets `break_on_first_error` in the context and the object flag to the truthiness of the argument |
| Scripts.ScriptMethod.HandleFailOnErrorDeprecatedCallback | src/Method/ScriptMethod.php:236-240 | does what `breakOnFirstError` does |
| Scripts.ScriptMethod.HandleFailOnMissingDirectoryCallback | src/Method/ScriptMethod.php:257-262 | probes the directory and raises exactly when it is absent, with the source's message |
| Scripts.ScriptMethod.ExecuteCallback | src/Method/ScriptMethod.php:201-216 | equals the callback specification; an unregistered name changes nothing and reports unhandled |
| Scripts.ScriptMethod.RunScriptImpl | src/Method/ScriptMethod.php:130-173 | equals the script specification: set the flag variable, `cd`, apply the environment, validate, run the lines |
| Scripts.ScriptMethod.RunLinesLoop | src/Method/ScriptMethod.php:155-172 | equals the line-loop specification |
| Scripts.ScriptMethod.RunScript | src/Method/ScriptMethod.php:49-116 | equals the run specification, including the caught unknown-placeholder case |
| Scripts.ScriptMethod.RunTaskSpecificScripts | src/Method/ScriptMethod.php:286-303 | equals the task-script specification |
| Scripts.ScriptMethod.Fallback | src/Method/ScriptMethod.php:313-317 | runs the task scripts of the task |
| Scripts.ScriptMethod.PreflightTask | src/Method/ScriptMethod.php:327-331 | runs the task scripts of `<task>Prepare` |
| Scripts.ScriptMethod.PostflightTask | src/Method/ScriptMethod.php:341-345 | runs the task scripts of `<task>Finished` |
| ScriptProperties.FirstFailureIsFirst | src/Method/ScriptMethod.php:166 | the first failure index points at a failed line with no failed line before it; none means no line fails |
| ScriptProperties.ShellLineStep | src/Method/ScriptMethod.php:162-168 | a shell line is run and recorded; the loop returns on its failure when the flag is set, and continues otherwise |
| ScriptProperties.ShellLineContinues | src/Method/ScriptMethod.php:162-168 | a line that succeeds, or fails with the flag unset, hands on to the next line |
| ScriptProperties.ShellLineStops | src/Method/ScriptMethod.php:166-167 | a failing line with the flag set ends the loop with its result |
| ScriptProperties.ShellLinesRaiseNothing | src/Method/ScriptMethod.php:155-172 | shell-only lines raise nothing and keep the flag and the variables |
| ScriptProperties.ShellLinesStopAtFirstFailure | src/Method/ScriptMethod.php:155-168 | with the flag set, exactly the lines up to and including the first failing one run, in order |
| ScriptProperties.ShellLinesEndOnFirstFailure | src/Method/ScriptMethod.php:166-167 | with the flag set, the result is the first failing line's result |
| ScriptProperties.ShellLinesRunAll | src/Method/ScriptMethod.php:155-172 | with the flag unset or no failure, every line runs in order |
| ScriptProperties.ShellLinesEndOnLast | src/Method/ScriptMethod.php:172 | then the result is the last line's result, or the prior one (null) when there are no lines |
| ScriptProperties.ShellLinesResult | src/Method/ScriptMethod.php:155-172 | the loop's result is the deciding line's result and is null exactly when there are no lines |
| ScriptProperties.FlagKeptWithoutFlagCallbacks | src/Method/ScriptMethod.php:246-250 | lines that call no flag callback leave the flag unchanged |
| ScriptProperties.RunLinesExtendsLog | src/Method/ScriptMethod.php:155-172 | the loop only appends to the shell log |
| ScriptProperties.CallbackLineDispatch | src/Method/ScriptMethod.php:156-163 | a registered callable callback is invoked instead of the shell; a registered non-callable one raises MissingScriptCallback; an unregistered name runs as a shell command |
| ScriptProperties.ScriptImplStopsOnUnresolved | src/Method/ScriptMethod.php:139-153 | a command or environment value still holding a placeholder raises UnknownReplacementPattern after `cd` and the environment, and no line runs |
| ScriptProperties.UnresolvedPlaceholderRunsNothing | src/Method/ScriptMethod.php:90-115 | `runScript` catches that exception: no error escapes, no result is set, no command runs |
| ScriptProperties.SetupRunsNoCommand | src/Method/ScriptMethod.php:143-144 | `cd` and the environment run no command |
| ScriptProperties.NothingUnresolved | src/Method/ScriptMethod.php:146-153 | without placeholders both validations pass |
| ScriptProperties.ConcludedShellRun | src/Method/ScriptMethod.php:91-100 | `exitCode` is set to the deciding line's exit code, and the run fails (getExitCode on null) exactly when there are no lines |
| ScriptProperties.RunScriptFailsIffNoLines | src/Method/ScriptMethod.php:91-100 | a placeholder-free shell script run succeeds exactly when it has at least one command |
| GitMethod.DefaultConfig | src/Method/GitMethod.php:41-49 | the defaults are branch `develop`, gitRootFolder the root folder, ignoreSubmodules false, and gitOptions from the settings |
| GitMethod.ValidateConfig | src/Method/GitMethod.php:51-56 | there is no issue exactly when `gitRootFolder` and `branch` are set |
| GitMethod.VersionHasNoSlash | src/Method/GitMethod.php:62 | the version has no `/`, is empty on failure, and is as long as the first output line |
| GitMethod.GetVersion | src/Method/GitMethod.php:58-63 | `cd` to the git root, run `git describe`, return its version |
| GitMethod.IsWorkingcopyClean | src/Method/GitMethod.php:72-77 | `cd`, run `git diff --exit-code --quiet`; clean exactly when it succeeds |
| GitMethod.DeployCommands | src/Method/GitMethod.php:99-106 | fetch, checkout of the branch, fetch --tags, then pull with the pull options joined by spaces |
| GitMethod.SubmodulesIffNotIgnored | src/Method/GitMethod.php:108-111 | submodule update and sync follow exactly when `ignoreSubmodules` is empty |
| GitMethod.Deploy | src/Method/GitMethod.php:89-112 | a dirty working copy runs `git status` and raises EarlyTaskExit before any fetch; a clean one runs the deploy commands on the context branch, else the host branch |
| GitMethod.DeployCommandsRun | src/Method/GitMethod.php:93-111 | the commands a deploy runs are the diff, then status or the deploy commands |
| GitMethod.SplicedInserts | src/Method/GitMethod.php:120 | the version is inserted at index 1, or at the end of a shorter list, and removing it gives back the list |
| GitMethod.BackupPrepare | src/Method/GitMethod.php:115-123 | a non-empty version is spliced into `basename`; an empty one leaves the results unchanged |
| GitMethod.AppCheckExisting | src/Method/GitMethod.php:133-138 | `appInstallDir` is set to gitRootFolder only when it is not already truthy |
| GitMethod.CreateCommands | src/Method/GitMethod.php:158-173 | clone of the branch, submodule update unless ignored, `touch .projectCreated`, then back to the old directory |
| GitMethod.AppCreate | src/Method/GitMethod.php:140-174 | raises without a stage, does nothing unless the stage is `installCode`, raises without a repository, else runs the create commands |
| DrushMethod.SupportsExactly | src/Method/DrushMethod.php:23-26 | supports exactly `drush`, `drush7`, `drush8` and `drush9` |
| DrushMethod.DatabaseDefaults | src/Method/DrushMethod.php:81-85 | the database gets host `localhost`, skipCreateDatabase false, prefix false; other entries are kept |
| DrushMethod.GetDefaultConfig | src/Method/DrushMethod.php:73-94 | the loop over the setting keys computes the default configuration |
| DrushMethod.DefaultVersions | src/Method/DrushMethod.php:87-91 | drupalVersion is 7 exactly when `drush7` is needed, else 8; drushVersion 9 exactly when `drush9` is needed, else 8; zipped backups and the site and files folders are fixed |
| DrushMethod.FixedDefaultsKeep | src/Method/DrushMethod.php:87-91 | the fixed defaults change no other key |
| DrushMethod.DefaultDatabase | src/Method/DrushMethod.php:77-85 | database defaults apply exactly when the host has a database; each setting key is copied from the settings |
| DrushMethod.ValidateConfigErrors | src/Method/DrushMethod.php:96-126 | there are no errors exactly when the six keys are set and, for a non-empty database, its four keys; the deprecation warning comes exactly when a versioned drush is needed |
| DrushMethod.AlterConfig | src/Method/DrushMethod.php:133-146 | the site and files folders are prefixed with the root folder; it raises exactly when drupalVersion is at least 8 under PHP 7's `>=` (a string by its number, an array always) and there is no uuid |
| DrushMethod.VersionAsText | src/Method/DrushMethod.php:141 | a version given as the text of a number compares with 8 and renders under `%d` as that number |
| DrushMethod.DumpShape | src/Method/DrushMethod.php:344-362 | the directory is created only when missing, the old dump is removed, then the dump command runs |
| DrushMethod.BackupSql | src/Method/DrushMethod.php:338-364 | returns the dump file (`.gz` when zipped) and logs the dump operations, probing and creating PHP's `dirname` of the dump name |
| Common.DirnameOfJoin | src/Method/DrushMethod.php:349-350 | `dirname` of a directory, slashes and a file name is the directory without its trailing slashes, or `/` |
| DrushMethod.BackupDirectory | src/Method/DrushMethod.php:374-377 | the directory a backup probes and creates is `backupFolder` without trailing slashes (`/` when only slashes), for slash-free basename parts |
| DrushMethod.BackupDirectoryTrailingSlash | src/Method/DrushMethod.php:374-377 | a `backupFolder` of `/var/backups/` gives the dump directory `/var/backups` |
| DrushMethod.Backup | src/Method/DrushMethod.php:366-385 | does nothing unless `db` is wanted; otherwise dumps into the directory BackupDirectory states and appends the db file to `files` |
| DrushMethod.GzippedIffGzSuffix | src/Method/DrushMethod.php:450 | for a name with a dot, it is read as gzipped exactly when it ends in `.gz` |
| DrushMethod.DotlessNameReadAsGzipped | src/Method/DrushMethod.php:450 | a name without a dot ending in `gz` is read as gzipped too, as the code is written |
| DrushMethod.ImportSqlFromFile | src/Method/DrushMethod.php:443-454 | drops the database first exactly when asked, then runs the import and returns its result |
| DrushMethod.DbEntries | src/Method/DrushMethod.php:421-424 | only entries of type `db` are imported |
| DrushMethod.DbLooseMatches | src/Method/DrushMethod.php:416-423 | examples of PHP 7's loose comparison with `'db'`: `0` and `true` match, `1` and `'files'` do not |
| DrushMethod.RestoreImportsEach | src/Method/DrushMethod.php:420-434 | a completed restore runs one import per db entry, in order |
| DrushMethod.RestoreReportsEach | src/Method/DrushMethod.php:430-433 | a completed restore appends each imported file to `files` |
| DrushMethod.FirstFailureIsFirst | src/Method/DrushMethod.php:426-429 | the first failure index is the first failed import |
| DrushMethod.RestoreFailsAtFirstFailure | src/Method/DrushMethod.php:426-429 | restore raises exactly when an import fails, naming the first failing entry |
| DrushMethod.RestoreRunsUpToFailure | src/Method/DrushMethod.php:420-429 | a failing restore runs the imports up to and including the failing one |
| DrushMethod.RestoreLoopImportsDbEntries | src/Method/DrushMethod.php:420-434 | the loop over the backup set is the restore of its db entries |
| DrushMethod.Restore | src/Method/DrushMethod.php:412-435 | does nothing unless `db` is wanted; otherwise equals the restore loop |
| DrushMethod.NonBlankMembers | src/Method/DrushMethod.php:258 | a module is listed exactly when it is a line that is not blank after trimming |
| DrushMethod.WithoutMembers | src/Method/DrushMethod.php:262-271 | a module survives exactly when it is not ignored |
| DrushMethod.WithoutNothing | src/Method/DrushMethod.php:262-271 | an empty ignore list keeps every module |
| DrushMethod.ModuleListMembers | src/Method/DrushMethod.php:258-271 | the module list is the non-blank lines minus the ignored ones |
| DrushMethod.HandleModules | src/Method/DrushMethod.php:245-277 | an absent file only probes; otherwise it reads the file and enables or disables the module list |
| DrushMethod.UpdateCleansUp | src/Method/DrushMethod.php:521-542 | the update directory is removed before the download and after the sync, and the shell returns to its directory |
| DrushMethod.DownloadsInto | src/Method/DrushMethod.php:525-527 | the download targets the update directory |
| DrushMethod.SyncDownload | src/Method/DrushMethod.php:536-542 | the sync runs and the shell returns to its directory |
| DrushMethod.AppUpdate | src/Method/DrushMethod.php:511-543 | does nothing when `composer` is needed; raises after a failed download; otherwise downloads the major version `%d` reads from `drupalVersion`, syncs and cleans up |
| DrushMethod.AsWrittenNeverGivesUp | src/Method/DrushMethod.php:570-589 | as written, a database that never answers keeps the loop pinging for any number of steps |
| DrushMethod.WaitBounded | src/Method/DrushMethod.php:567-594 | the bounded wait pings at most the maximum number of times and succeeds exactly when one ping within them succeeds |
| DrushMethod.DeadDatabaseDiffers | src/Method/DrushMethod.php:570-591 | on a dead database the as-written loop has not ended after more than the maximum pings, while the bounded one raises |
| DrushMethod.WaitForDatabase | src/Method/DrushMethod.php:567-594 | equals the bounded wait |
| FtpSyncMethod.GlobalSettings | src/Method/FtpSyncMethod.php:32-42 | adds the ftp-sync exclude list and keeps every other setting |
| FtpSyncMethod.DefaultConfig | src/Method/FtpSyncMethod.php:44-64 | adds tmpFolder, the lftp executable, deployMethod `ftp-sync` and the ftp defaults, keeping other keys |
| FtpSyncMethod.FtpKeysComplete | src/Method/FtpSyncMethod.php:79-84 | the four ftp keys are all set exactly when the ftp block is complete |
| FtpSyncMethod.ValidateConfigErrors | src/Method/FtpSyncMethod.php:66-86 | there are no errors exactly when drush is not needed, deployMethod is `ftp-sync`, ftp is an array, and a non-empty ftp has user, host, port and rootFolder |
| FtpSyncMethod.PortOnlyMissing | src/Method/FtpSyncMethod.php:79-84 | an ftp block with only a port reports user, host and rootFolder, in that order |
| FtpSyncMethod.DefaultsLackOnlyCredentials | src/Method/FtpSyncMethod.php:44-86 | the defaults alone fail validation only on user, host and rootFolder |
| FtpSyncMethod.WithPassword | src/Method/FtpSyncMethod.php:150-154 | the password is fetched from the password manager only when empty; nothing else changes |
| FtpSyncMethod.FetchPassword | src/Method/FtpSyncMethod.php:150-154 | returns the host with its password filled in |
| FtpSyncMethod.SetKeys | src/Method/FtpSyncMethod.php:110-113 | the clone's three folder keys are the install dir; other keys are kept |
| FtpSyncMethod.SetAll | src/Method/FtpSyncMethod.php:110-113 | the loop sets those keys |
| FtpSyncMethod.ExcludeJoin | src/Method/FtpSyncMethod.php:164-166 | the exclude loop equals ` --exclude ` before each entry, in order |
| FtpSyncMethod.DefaultSyncOptions | src/Method/FtpSyncMethod.php:163-166 | with the defaults, the options are the four lftp options then the three default excludes |
| FtpSyncMethod.Options | src/Method/FtpSyncMethod.php:162-166 | the options string is the lftp options joined by spaces followed by the excludes |
| FtpSyncMethod.EchoedLine | src/Method/FtpSyncMethod.php:171-187 | echoing a line into the command file adds exactly that line |
| FtpSyncMethod.FileThroughUpload | src/Method/FtpSyncMethod.php:170-192 | the command file holds open, mirror and exit before lftp reads it, and is gone after its removal |
| FtpSyncMethod.CommandFileHolds | src/Method/FtpSyncMethod.php:169-193 | the upload writes open, mirror, exit, runs lftp, removes the file and then the install dir |
| FtpSyncMethod.UploadCommands | src/Method/FtpSyncMethod.php:170-193 | the upload is seven commands |
| FtpSyncMethod.RunUpload | src/Method/FtpSyncMethod.php:169-193 | runs the upload commands in order |
| FtpSyncMethod.Upload | src/Method/FtpSyncMethod.php:162-193 | runs the sync commands for the host's command file |
| FtpSyncMethod.Finish | src/Method/FtpSyncMethod.php:135 | a completed code creation sets `skipResetStep` |
| FtpSyncMethod.StageList | src/Method/FtpSyncMethod.php:104-107 | the `appStages.createCode` setting, or the default stages when it is missing |
| FtpSyncMethod.CreateAppCodeSpec | src/Method/FtpSyncMethod.php:97-136 | a completed code creation sets `skipResetStep` |
| FtpSyncMethod.StagesRunFirst | src/Method/FtpSyncMethod.php:109-124 | the stages run on the clone whose three folders are the install dir, from the temporary folder, with `outerShell` set; when they raise, no deploy script runs and the outcome is their state and exception |
| FtpSyncMethod.DeployScriptsSeeInstallFolder | src/Method/FtpSyncMethod.php:126-135 | after stages that raise nothing, the deploy scripts run on that clone with `variables.installFolder` and `rootFolder` naming the install dir, after the stages' log |
| FtpSyncMethod.ExecuteStages | src/Method/FtpSyncMethod.php:117-124 | the stage run's operations follow the log, and its context, flag and exception are taken on |
| FtpSyncMethod.EnterAndStage | src/Method/FtpSyncMethod.php:109-124 | clones the host, enters the temporary folder, sets `outerShell` and runs the stages |
| FtpSyncMethod.ScriptsAndFinish | src/Method/FtpSyncMethod.php:127-135 | sets the install folder variables, runs the deploy scripts and sets `skipResetStep` unless they raised |
| FtpSyncMethod.CreateAppCode | src/Method/FtpSyncMethod.php:97-136 | equals the code-creation specification |
| FtpSyncMethod.Build | src/Method/FtpSyncMethod.php:150-160 | fills the password, picks the install dir and creates the app code there, stages included |
| FtpSyncMethod.UploadAndFinish | src/Method/FtpSyncMethod.php:162-196 | runs the sync commands and sets `runNextTasks` to an empty list |
| FtpSyncMethod.UploadedEffects | src/Method/FtpSyncMethod.php:169-196 | a completed upload ends the log with the sync commands, empties `runNextTasks` and keeps `skipResetStep` |
| FtpSyncMethod.DeployEffects | src/Method/FtpSyncMethod.php:144-197 | a deploy of another deploy method does nothing; a completed ftp-sync deploy ends with the sync commands, an empty `runNextTasks` and `skipResetStep` |
| FtpSyncMethod.Deploy | src/Method/FtpSyncMethod.php:144-197 | equals the deploy specification |
| DockerMethod.SetIn | src/Method/DockerMethod.php:29-36 | setting a nested key changes only that key |
| DockerMethod.DefaultConfig | src/Method/DockerMethod.php:26-39 | adds the supervisorctl and chmod executables; sets the tunnel's destHostFromDockerContainer to the container name only when a tunnel and a name exist and neither destination is set |
| DockerMethod.TunnelDefaultSettles | src/Method/DockerMethod.php:31-37 | once set, the tunnel default does not apply again |
| DockerMethod.ValidateConfigErrors | src/Method/DockerMethod.php:41-51 | there are no errors exactly when `docker` is an array with a name and a configuration |
| DockerMethod.Resolve | src/Method/DockerMethod.php:99-113 | a handler method of the task's name wins; else a non-empty config task runs; else it is skipped when silent and missing when not |
| DockerMethod.ScriptVars | src/Method/DockerMethod.php:115-127 | the script context gets scriptData, `variables={dockerHost}`, the docker environment, empty callbacks and the docker root folder; nothing else changes |
| DockerMethod.EnterScript | src/Method/DockerMethod.php:121-127 | sets those variables |
| DockerMethod.ServicesUpIff | src/Method/DockerMethod.php:159-172 | services are up exactly when every non-blank status line reports RUNNING after its start |
| DockerMethod.CountServices | src/Method/DockerMethod.php:161-168 | the counting loop computes the service and running counts |
| DockerMethod.WaitLogBounded | src/Method/DockerMethod.php:152-179 | the wait runs the status command at most ten times |
| DockerMethod.WaitThrowsIff | src/Method/DockerMethod.php:156-171 | the wait raises exactly when a status query fails before the services are up |
| DockerMethod.WaitGivesUp | src/Method/DockerMethod.php:156-180 | while services stay down, it tries ten times and returns without error |
| DockerMethod.WaitForServices | src/Method/DockerMethod.php:147-181 | equals the wait specification, which returns at once without a supervisorctl executable |
| DockerMethod.KeyFilesDistinct | src/Method/DockerMethod.php:188-210 | the key table has no two entries with the same destination |
| DockerMethod.KeyFilesPermissions | src/Method/DockerMethod.php:188-210 | the public key gets 644 and every other file 600 |
| DockerMethod.KeyFilesPublicKey | src/Method/DockerMethod.php:194-203 | the public key follows the private key and is its file plus `.pub` |
| DockerMethod.KeyFilesListed | src/Method/DockerMethod.php:188-210 | each file is listed exactly when its setting is present |
| DockerMethod.KeyTable | src/Method/DockerMethod.php:185-210 | builds the key table from the settings |
| DockerMethod.FileOpsAt | src/Method/DockerMethod.php:213-224 | each file is uploaded and then has its permissions set |
| DockerMethod.CopyOps | src/Method/DockerMethod.php:211-226 | no files means no operations; otherwise the files' operations then the `.ssh` lock-down |
| DockerMethod.CopyOpsUploadsEach | src/Method/DockerMethod.php:211-224 | the k-th file's upload and chmod sit at positions 2k and 2k+1 |
| DockerMethod.UploadFiles | src/Method/DockerMethod.php:213-224 | logs the files' operations |
| DockerMethod.CopySshKeys | src/Method/DockerMethod.php:183-231 | logs the copy operations of the key table |
| DockerMethod.ReportsTrueExamples | src/Method/DockerMethod.php:241-247 | examples (the general rule is `IsContainerRunning`'s contract): `["false", " True\n"]` is running, `["true", "false"]` and no output are not |
| DockerMethod.IsContainerRunning | src/Method/DockerMethod.php:233-248 | runs the inspect command; running exactly when the last output line reads `true` |
| DockerMethod.StripKeeps | src/Method/DockerMethod.php:274 | stripping a pattern from a line without its first character changes nothing |
| DockerMethod.AddressUnchanged | src/Method/DockerMethod.php:274 | an address without backslashes is reported as is |
| DockerMethod.AddressReported | src/Method/DockerMethod.php:258-277 | an address is reported exactly when the container runs and the inspect succeeds, and it is the unescaped first line; otherwise false |
| DockerMethod.AddressProbes | src/Method/DockerMethod.php:264-271 | the address is inspected only when the container runs |
| DockerMethod.GetIpAddress | src/Method/DockerMethod.php:258-277 | equals the address specification |
| DockerMethod.AsWrittenNeverReportsConfig | src/Method/DockerMethod.php:290 | as written, the class test never matches a namespaced shell provider, so `config` is never reported |
| DockerMethod.SshDockerHostDiffers | src/Method/DockerMethod.php:290-292 | for an ssh shell provider the as-written test adds no `config`, while the intended one reports it |
| DockerMethod.StartRemoteAccess | src/Method/DockerMethod.php:286-293 | probes the address and reports `ip`, plus `config` for an ssh shell provider |
| DockerMethod.TaskStep | src/Method/DockerMethod.php:95-132 | one phase: run the handler method, run the config script, skip, or raise MethodNotFound |
| DockerMethod.SilentPhasesSkipped | src/Method/DockerMethod.php:77-81 | with nothing for `Prepare` and `Finished`, `docker` is the main phase alone |
| DockerMethod.MissingTaskStops | src/Method/DockerMethod.php:77-81 | a main task that is nowhere raises MethodNotFound after `Prepare` and before `Finished` |
| DockerMethod.RunWait | src/Method/DockerMethod.php:134-141 | the internal `waitForServices` task |
| DockerMethod.RunCopy | src/Method/DockerMethod.php:134-141 | the internal `copySSHKeys` task |
| DockerMethod.RunAccess | src/Method/DockerMethod.php:134-141 | the internal `startRemoteAccess` task |
| DockerMethod.RunMethod | src/Method/DockerMethod.php:99-101 | runs the handler method of the task's name |
| DockerMethod.RunDockerScript | src/Method/DockerMethod.php:115-131 | runs a config task as a script on the docker host's shell |
| DockerMethod.RunConfigTask | src/Method/DockerMethod.php:104-131 | runs, skips or rejects a config task |
| DockerMethod.RunTaskImpl | src/Method/DockerMethod.php:95-132 | equals one phase |
| DockerMethod.Docker | src/Method/DockerMethod.php:75-82 | runs `Prepare` silently, the task, then `Finished` silently, stopping at the first exception |
| LocalMethod.DefaultConfig | src/Method/LocalMethod.php:24-36 | the root folder is the fabfile's path and the shell provider is local; `needs=[local]` exactly when `runLocally` is non-empty |
| LocalMethod.ValidateConfig | src/Method/LocalMethod.php:38-44 | only warnings, and one exactly when `runLocally` is present |
| LocalMethod.DefaultNeedsSelectLocal | src/Method/LocalMethod.php:31-33 | the added needs select the local handler |
| ListBackupsCommand.What | src/Command/ListBackupsCommand.php:54-56 | one entry per argument, or per default type |
| ListBackupsCommand.WhatIsNormal | src/Command/ListBackupsCommand.php:54-56 | the types are lower-case and trimmed, and normalising them again changes nothing |
| ListBackupsCommand.DefaultWhatListsAll | src/Command/ListBackupsCommand.php:22-27 | without arguments the types are `files` and `db` |
| ListBackupsCommand.KeptCounts | src/Command/ListBackupsCommand.php:62-64 | a backup is kept, as often as listed, exactly when its type is wanted |
| ListBackupsCommand.StrCmpSwap | src/Command/ListBackupsCommand.php:67-69 | the comparison is antisymmetric and zero only on equal strings |
| ListBackupsCommand.StrCmpTrans | src/Command/ListBackupsCommand.php:67-69 | the comparison is transitive |
| ListBackupsCommand.ListedBeforeTotal | src/Command/ListBackupsCommand.php:65-70 | any two backups are ordered one way or the other |
| ListBackupsCommand.ListedBeforeTrans | src/Command/ListBackupsCommand.php:65-70 | the order is transitive |
| ListBackupsCommand.Insert | src/Command/ListBackupsCommand.php:65-70 | inserting adds exactly the backup |
| ListBackupsCommand.InsertSorted | src/Command/ListBackupsCommand.php:65-70 | inserting keeps a sorted list sorted |
| ListBackupsCommand.Sort | src/Command/ListBackupsCommand.php:65-70 | sorting permutes the backups |
| ListBackupsCommand.SortSorted | src/Command/ListBackupsCommand.php:65-70 | the sorted list is sorted |
| ListBackupsCommand.NewestFirst | src/Command/ListBackupsCommand.php:65-70 | dates descend, and times descend on equal dates |
| ListBackupsCommand.TableRowsAreKept | src/Command/ListBackupsCommand.php:61-70 | the listed backups are exactly the wanted ones, each as often as returned |
| ListBackupsCommand.TableRows | src/Command/ListBackupsCommand.php:72-80 | every row is date, time, hash and file of a wanted backup |
| ListBackupsCommand.ParentFailureRunsNothing | src/Command/ListBackupsCommand.php:49-51 | a failing base command is returned, no handler is called and no row is shown |
| ListBackupsCommand.Execute | src/Command/ListBackupsCommand.php:46-84 | runs `listBackups`, shows the table and returns `exitCode`, default 0, or the raised exception |
| ComposerCommand.CommandLineSplits | src/Command/ComposerCommand.php:52 | the arguments joined by single spaces split back into the arguments when none holds a space |
| ComposerCommand.CommandContext | src/Command/ComposerCommand.php:51-52 | the task's context holds only `command` |
| ComposerCommand.Ending | src/Command/ComposerCommand.php:54-60 | an early task exit returns 1, another exception escapes, and a completed run returns `exitCode`, default 0 |
| ComposerCommand.ParentFailureReturned | src/Command/ComposerCommand.php:47-49 | a failing base command is returned and no handler is called |
| ComposerCommand.EarlyExitNeverEscapes | src/Command/ComposerCommand.php:54-58 | the command never raises an early task exit |
| ComposerCommand.Execute | src/Command/ComposerCommand.php:45-61 | equals the execute specification |
| BaseOptionsCommand.CompleteOptionValues | src/Command/BaseOptionsCommand.php:50-55 | `offline` completes to `1` and `0`; no other option completes |
| BaseOptionsCommand.FabfileArgument | src/Command/BaseOptionsCommand.php:71 | an empty fabfile option becomes `''`; otherwise it is passed on |
| BaseOptionsCommand.ReadConfiguration | src/Command/BaseOptionsCommand.php:69-74 | the working directory, the defaulted fabfile and the offline option are handed on |
| BaseOptionsCommand.ErrorsNameUnfilled | src/Command/BaseOptionsCommand.php:98-112 | every message names an unfilled option and every unfilled option has its message |
| BaseOptionsCommand.NoExceptionIffAllFilled | src/Command/BaseOptionsCommand.php:107-116 | there is no exception exactly when no value-required option is null, `''`, or an empty array option |
| BaseOptionsCommand.SingleErrorMessage | src/Command/BaseOptionsCommand.php:110-116 | one unfilled option gives its message alone |
| BaseOptionsCommand.CheckAllRequiredOptionsAreNotEmpty | src/Command/BaseOptionsCommand.php:96-117 | raises InvalidArgument with the messages in definition order joined by a blank line, exactly when some are |

## Left out

- Common.Strings: a dictionary given where a list setting is expected (`needs`, `scriptData`, `runNextTasks`, `gitOptions.pull`, `sqlSkipTables`, the `basename` result, the module ignore lists, `excludeFiles.ftpSync`, `ftp.lftpOptions`) reads as no items, because PHP iterates its values in insertion order and a Dafny map keeps no order; `in_array` on these lists compares the items' string forms exactly, not loosely (an integer 0 item does not match "drush").
- GitMethod: `getShell()`, `$host_config->shell()` and the context's `outerShell` are taken to be the one shell passed in; `BaseMethod::getShell` and the shell provider factory are not part of this model.
- Logging, console output and the rendering of tables are not modelled; they do not change what the code decides.
- `sleep` in the retry loops is left out. The clock and the `date`/`time` based file names are parameters.
- Shell providers, the configuration service, the password manager, `Utilities` and `TaskContext` are not part of this model. Each is a parameter, or a class with a stated contract, and is not verified.
- Each handler's parent `getDefaultConfig`/`validateConfig`/`getGlobalSettings` is taken as a parameter or left out.
- MethodFactory `all()` returns the registry as is; it has no logic of its own.
- Dispatch.MethodFactory.RunTask: chained tasks carry a fuel bound, so a chain that keeps re-chaining itself beyond the bound is not modelled.
- Handler task names are a finite set; PHP's case-insensitive `method_exists` is modelled as exact membership.
- Scripts: `handleExecuteCallback` is recorded as an invoked callback; `executeCommand` behind it is not part of this model.
- Scripts.CallbackSpec: a user callback is an oracle of its arguments and the context; the shell commands it runs itself and any change it makes to the interpreter's flag are not modelled.
- Scripts: the unknown-placeholder report prints a table; only the fact that the exception is caught is modelled.
- GitMethod `getGlobalSettings`, `getCommitHash`, `version` and `getMetaInformation` are left out as plain command wrappers outside the named operations.
- DrushMethod `reset`, `install`, `drush`, `listBackups`, `getSQLDump`, `restoreSqlFromFile`, `copyFrom`, `appCreate` and `setupConfigurationManagement` are left out; they are command sequences outside the named operations.
- AlterConfig: a string `drupalVersion` is read by PHP 7's integer reading (whitespace, sign, leading digits); a fraction or exponent (`"7.9e1"`) is not read, and PHP floats do not occur in the model.
- AppUpdate: `%d` of a string `drupalVersion` is read the same way, so an exponent is not read and integers do not saturate at `PHP_INT_MAX`.
- DrushMethod: the loose `in_array('db', ...)` and `!= 'db'` follow PHP 7's loose comparison for the word `db` (`0` and `true` match).
- FtpSyncMethod: `AppDefaultStages` is not part of this model; `executeStages` is an oracle of the cloned host, the stage list and the script state, and its default stage list is a parameter. The shell object stored as `outerShell` is a value passed in. A stage's change of working directory is not tracked.
- FtpSyncMethod: shell expansion inside the echoed lines is not modelled.
- FtpSyncMethod: an `exclude` entry that is a dictionary is read as empty.
- FtpSyncMethod: the working directory is not tracked in the script state.
- DockerMethod: `getDockerConfig` is a parameter, and setting a shell or output on the context is not modelled.
- DockerMethod: `method_exists` is modelled for the three internal tasks (`waitForServices`, `copySSHKeys`, `startRemoteAccess`) only.
- DockerMethod: the HTTP download, `tempnam`, `file_put_contents` and `unlink` in `copySSHKeys` are one fetch parameter.
- DockerMethod: the host's shell and the docker host's shell are two distinct objects, which every method requires.
- DockerMethod: the MethodNotFound message text is reduced to the task name.
- DockerMethod: the last line of an empty output (`array_pop`, `$output[0]`) is read as `''`.
- ListBackupsCommand: the loose `==`/`in_array` comparisons are modelled as string equality, which differs for numeric strings.
- ListBackupsCommand: a `files` result that is not a list is read as no backups; PHP would raise a type error.
- ListBackupsCommand: `uasort` is not stable for equal keys; the model uses one stable order.
- ListBackupsCommand: `strcmp` is reduced to its sign, comparing characters by code point.
- ListBackupsCommand, ComposerCommand: the result of `parent::execute` is a parameter, and the needs come from the host configuration; the rest of the task context's constructor is not modelled.
- BaseOptionsCommand: `configure`, `getenv` and the offline switch of the configuration service are left out; an undefined option reads as null.

## Findings

| source | as written | input that shows it | evidently intended | confidence | as-written member | corrected member |
|---|---|---|---|---|---|---|
| src/Method/DrushMethod.php:570-589 | `$tries` is compared with the maximum but never incremented, so the loop only ends when the database answers | a database whose ping always fails: the loop pings forever | give up after the maximum number of pings and raise | high; not executed | DrushMethod.AsWrittenNeverGivesUp | DrushMethod.WaitBounded |
| src/Method/DockerMethod.php:290 | `is_a($shell, 'SshShellProvider')` names the class without its namespace, so it never matches the namespaced provider | a docker host using `Phabalicious\ShellProvider\SshShellProvider`: `config` is not reported | report the ssh configuration for an ssh shell provider | medium; not executed | DockerMethod.SshDockerHostDiffers | DockerMethod.StartRemoteAccess |
