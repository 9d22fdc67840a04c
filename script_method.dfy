/**
 * The script interpreter (ScriptMethod): a script is a list of command lines;
 * each line is either an inline callback `name(args)` dispatched to a
 * registered callback, or a shell command. Before the lines run, placeholders
 * are expanded (commands twice, environment values once) and any line still
 * holding a `%...%` placeholder aborts the run. `breakOnFirstError` is state of
 * the interpreter object: it survives from one script run to the next.
 *
 * The helpers of `Utilities` (variable and string expansion, data merging,
 * callback extraction, `is_callable`) are not part of this model; they are
 * passed in as uninterpreted functions, with one stated assumption: expanding
 * a list or an array expands each element on its own.
 */
module Scripts {
  import opened Common
  import opened Context
  import opened ShellProvider
  import opened Validation

  /** A callback line as `Utilities::extractCallback` splits it. */
  datatype CallbackCall = CallbackCall(name: string, args: seq<string>)

  datatype Utilities = Utilities(
    /** `expandStrings` on one string, with a replacement table. */
    expand: (string, map<string, string>) -> string,
    /** `expandVariables`: the replacement table of a variables array. */
    expandVariables: Value -> map<string, string>,
    /** `mergeData`. */
    mergeData: (Value, Value) -> Value,
    /** The (key, string value) pairs of an environment array, in PHP iteration order. */
    entries: Value -> Env,
    /** `extractCallback`: None when the line is not a callback call. */
    extractCallback: string -> Option<CallbackCall>,
    /** `is_callable` on a user-supplied callback. */
    isCallable: Value -> bool,
    /** `call_user_func_array` on a user-supplied callback, given its arguments and the context. */
    callUser: (Value, seq<string>, Ctx) -> UserCall)

  /** What a user callback did: the context's variables and results afterwards, and what it raised. */
  datatype UserCall = UserCall(after: Ctx, raised: Option<Error>)

  /** The shell's oracles, as the specification functions see them. */
  datatype Oracle = Oracle(answer: Answer, present: Presence)

  const BreakVar := "break_on_first_error"
  const HostConfigVar := "host_config"

  // ---------------------------------------------------------------------------
  // Handler identity and configuration.

  const Name := "script"

  /** `supports` */
  predicate Supports(methodName: string)
  {
    methodName == Name
  }

  /** `getDefaultConfig`: the fabfile's path is the root folder. */
  function DefaultConfig(fabfilePath: string): (r: map<string, Value>)
    ensures r.Keys == {"rootFolder"} && r["rootFolder"] == Str(fabfilePath)
  {
    map["rootFolder" := Str(fabfilePath)]
  }

  /** `validateConfig`: the root folder is the one required key. */
  function ValidateConfig(config: map<string, Value>): (r: seq<Issue>)
    ensures r == [] <==> IsSet(config, "rootFolder")
    ensures r != [] ==> r == [Issue.Error("rootFolder", RootFolderHelp)]
  {
    HasKey(config, "rootFolder", RootFolderHelp)
  }

  const RootFolderHelp := "The root-folder of your configuration."

  /** The defaults always satisfy the validation. */
  lemma DefaultsValidate(fabfilePath: string)
    ensures ValidateConfig(DefaultConfig(fabfilePath)) == []
  {
  }

  // ---------------------------------------------------------------------------
  // Root folder.

  /**
   * The root-folder expression of `runScript` as PHP 7 parses the unparenthesised
   * nested ternary: `(isset(siteFolder) ? siteFolder : isset(rootFolder)) ? rootFolder : '.'`.
   * The site folder itself is never the result.
   */
  function DefaultRootFolder(host: map<string, Value>): (r: Value)
    ensures IsSet(host, "siteFolder") && !Empty(host["siteFolder"]) ==> r == Lookup(host, "rootFolder")
    ensures IsSet(host, "siteFolder") && Empty(host["siteFolder"]) ==> r == Str(".")
    ensures !IsSet(host, "siteFolder") && IsSet(host, "rootFolder") ==> r == host["rootFolder"]
    ensures !IsSet(host, "siteFolder") && !IsSet(host, "rootFolder") ==> r == Str(".")
  {
    var inner := if IsSet(host, "siteFolder") then host["siteFolder"] else Bool(IsSet(host, "rootFolder"));
    if !Empty(inner) then Lookup(host, "rootFolder") else Str(".")
  }

  /** A site folder next to a root folder yields the root folder, never the site folder. */
  lemma SiteFolderNeverChosen(host: map<string, Value>)
    requires IsSet(host, "siteFolder") && host["siteFolder"] != Lookup(host, "rootFolder") && host["siteFolder"] != Str(".")
    ensures DefaultRootFolder(host) != host["siteFolder"]
    ensures !Empty(host["siteFolder"]) ==> DefaultRootFolder(host) == Lookup(host, "rootFolder")
  {
  }

  /** Passing a value to the `string $root_folder` parameter; None is a TypeError. */
  function AsStringParameter(v: Value): (r: Option<string>)
    ensures v.Str? ==> r == Some(v.s)
    ensures v.Null? || v.List? || v.Dict? ==> r.None?
  {
    match v
    case Str(s) => Some(s)
    case Int(_) => Some(ToStr(v))
    case Bool(_) => Some(ToStr(v))
    case _ => None
  }

  // ---------------------------------------------------------------------------
  // Placeholder validation.

  /** PCRE `\s`. */
  predicate IsSpace(c: char)
  {
    c == ' ' || c == '\t' || c == '\n' || c == 11 as char || c == 12 as char || c == '\r'
  }

  predicate NoSpaceBetween(s: string, i: int, j: int)
    requires 0 <= i <= j <= |s|
  {
    forall k :: i < k < j ==> !IsSpace(s[k])
  }

  /** The pattern `%\S*%` matches somewhere in `s`. */
  ghost predicate HasPlaceholder(s: string)
  {
    exists i, j :: 0 <= i < j < |s| && s[i] == '%' && s[j] == '%' && NoSpaceBetween(s, i, j)
  }

  /** A `%` occurs before position `k` with no whitespace between it and `k`. */
  ghost predicate OpenAt(s: string, k: int)
    requires 0 <= k <= |s|
  {
    exists i :: 0 <= i < k && s[i] == '%' && NoSpaceBetween(s, i, k)
  }

  /** A match of `%\S*%` whose closing `%` is at `k` or later. */
  ghost predicate MatchFrom(s: string, k: int)
  {
    exists i, j :: 0 <= i < j < |s| && k <= j && s[i] == '%' && s[j] == '%' && NoSpaceBetween(s, i, j)
  }

  /** A left-to-right scan for `%\S*%`; `open` records a `%` seen with no whitespace since. */
  function ScanPlaceholder(s: string, k: nat, open: bool): bool
    requires k <= |s|
    decreases |s| - k
  {
    if k == |s| then false
    else if s[k] == '%' then open || ScanPlaceholder(s, k + 1, true)
    else ScanPlaceholder(s, k + 1, open && !IsSpace(s[k]))
  }

  lemma {:induction false} ScanPlaceholderFindsMatch(s: string, k: nat, open: bool)
    requires k <= |s|
    requires open <==> OpenAt(s, k)
    ensures ScanPlaceholder(s, k, open) <==> MatchFrom(s, k)
    decreases |s| - k
  {
    if k < |s| {
      if s[k] == '%' {
        assert OpenAt(s, k + 1) by {
          assert s[k] == '%' && NoSpaceBetween(s, k, k + 1);
        }
        ScanPlaceholderFindsMatch(s, k + 1, true);
        if open {
          var i :| 0 <= i < k && s[i] == '%' && NoSpaceBetween(s, i, k);
          assert MatchFrom(s, k);
        } else if MatchFrom(s, k) {
          var i, j :| 0 <= i < j < |s| && k <= j && s[i] == '%' && s[j] == '%' && NoSpaceBetween(s, i, j);
          assert j != k;
          assert MatchFrom(s, k + 1);
        }
      } else {
        var open' := open && !IsSpace(s[k]);
        assert open' <==> OpenAt(s, k + 1) by {
          if OpenAt(s, k + 1) {
            var i :| 0 <= i < k + 1 && s[i] == '%' && NoSpaceBetween(s, i, k + 1);
            assert i < k && NoSpaceBetween(s, i, k);
          }
          if open' {
            var i :| 0 <= i < k && s[i] == '%' && NoSpaceBetween(s, i, k);
            assert NoSpaceBetween(s, i, k + 1);
          }
        }
        ScanPlaceholderFindsMatch(s, k + 1, open');
        if MatchFrom(s, k) {
          var i, j :| 0 <= i < j < |s| && k <= j && s[i] == '%' && s[j] == '%' && NoSpaceBetween(s, i, j);
          assert j != k;
          assert MatchFrom(s, k + 1);
        }
      }
    }
  }

  /** `preg_match('/\%(\S*)\%/', $s)` */
  function MatchesPlaceholder(s: string): (r: bool)
    ensures r <==> HasPlaceholder(s)
  {
    ScanPlaceholderFindsMatch(s, 0, false);
    ScanPlaceholder(s, 0, false)
  }

  /** The line `validateReplacements` reports: the first one matching `%\S*%`. */
  function FirstUnresolved(lines: seq<string>): (r: Option<string>)
    ensures r.Some? ==> exists k :: 0 <= k < |lines| && lines[k] == r.value && HasPlaceholder(r.value) &&
                          forall k' :: 0 <= k' < k ==> !HasPlaceholder(lines[k'])
    ensures r.None? <==> forall k :: 0 <= k < |lines| ==> !HasPlaceholder(lines[k])
  {
    if lines == [] then None
    else if MatchesPlaceholder(lines[0]) then Some(lines[0])
    else
      var r := FirstUnresolved(lines[1..]);
      assert forall k :: 1 <= k < |lines| ==> lines[k] == lines[1..][k - 1];
      r
  }

  function EnvValues(env: Env): (r: seq<string>)
    ensures |r| == |env| && forall k :: 0 <= k < |env| ==> r[k] == env[k].1
  {
    seq(|env|, k requires 0 <= k < |env| => env[k].1)
  }

  // ---------------------------------------------------------------------------
  // Expansion and callbacks.

  /** `expandStrings` on a list: each element expanded on its own. */
  function ExpandAll(u: Utilities, xs: seq<string>, repl: map<string, string>): (r: seq<string>)
    ensures |r| == |xs| && forall k :: 0 <= k < |xs| ==> r[k] == u.expand(xs[k], repl)
  {
    seq(|xs|, k requires 0 <= k < |xs| => u.expand(xs[k], repl))
  }

  /** `expandStrings` on an environment: each value expanded, keys and order kept. */
  function ExpandEnv(u: Utilities, env: Env, repl: map<string, string>): (r: Env)
    ensures |r| == |env| && forall k :: 0 <= k < |env| ==> r[k] == (env[k].0, u.expand(env[k].1, repl))
  {
    seq(|env|, k requires 0 <= k < |env| => (env[k].0, u.expand(env[k].1, repl)))
  }

  datatype Builtin = Execute | FailOnErrorDeprecated | BreakOnFirstError | FailOnMissingDirectory
  datatype Callback = Builtin(which: Builtin) | User(fn: Value)

  /** The callbacks of a run: the user's, with the four built-ins written over them. */
  function WithBuiltins(user: map<string, Value>): (r: map<string, Callback>)
    ensures r.Keys == user.Keys + {"execute", "fail_on_error", "breakOnFirstError", "fail_on_missing_directory"}
    ensures r["execute"] == Builtin(Execute) && r["fail_on_error"] == Builtin(FailOnErrorDeprecated)
    ensures r["breakOnFirstError"] == Builtin(BreakOnFirstError)
    ensures r["fail_on_missing_directory"] == Builtin(FailOnMissingDirectory)
    ensures forall k :: k in user && k !in {"execute", "fail_on_error", "breakOnFirstError", "fail_on_missing_directory"} ==>
              r[k] == User(user[k])
  {
    (map k | k in user :: User(user[k]))
      ["execute" := Builtin(Execute)]
      ["fail_on_error" := Builtin(FailOnErrorDeprecated)]
      ["breakOnFirstError" := Builtin(BreakOnFirstError)]
      ["fail_on_missing_directory" := Builtin(FailOnMissingDirectory)]
  }

  /** `isset($callbacks[$name])` */
  predicate IsRegistered(cbs: map<string, Callback>, name: string)
  {
    name in cbs && cbs[name] != User(Null)
  }

  predicate IsCallable(u: Utilities, cb: Callback)
  {
    cb.Builtin? || u.isCallable(cb.fn)
  }

  // ---------------------------------------------------------------------------
  // Running the lines.

  /** What a script run can change: shell log, context variables, results and last command result, and the flag. */
  datatype State = State(log: seq<Op>, vars: map<string, Value>, results: map<string, Value>,
                         last: Option<CommandResult>, flag: bool)

  datatype Handling = Unhandled | Handled(state: State, err: Option<Error>)

  /** A registered, callable callback called with `args` (the context is passed first, implicitly). */
  function CallbackSpec(o: Oracle, u: Utilities, cb: Callback, name: string, args: seq<string>, st: State): (r: Handling)
    ensures r.Handled? && |r.state.log| > |st.log| && r.state.log[|st.log|] == Invoked(name, args)
    ensures cb.User? ==>
              var c := u.callUser(cb.fn, args, Ctx(st.vars, st.results));
              r.err == c.raised && r.state.vars == c.after.vars && r.state.results == c.after.results &&
              r.state.log == st.log + [Invoked(name, args)] && r.state.flag == st.flag && r.state.last == st.last
    ensures !cb.User? ==> r.state.results == st.results
    ensures cb != Builtin(BreakOnFirstError) && cb != Builtin(FailOnErrorDeprecated) ==> r.state.flag == st.flag
  {
    var st1 := st.(log := st.log + [Invoked(name, args)]);
    match cb
    case User(fn) =>
      var c := u.callUser(fn, args, Ctx(st1.vars, st1.results));
      Handled(st1.(vars := c.after.vars, results := c.after.results), c.raised)
    case Builtin(Execute) => Handled(st1, None)
    case Builtin(FailOnMissingDirectory) =>
      if args == [] then Handled(st1, Some(Runtime("Too few arguments to " + name)))
      else
        var found := o.present(|st1.log|, args[0]);
        var st2 := st1.(log := st1.log + [Probed(args[0])]);
        if found then Handled(st2, None) else Handled(st2, Some(Runtime("`" + args[0] + "` . does not exist!")))
    case Builtin(_) =>
      if args == [] then Handled(st1, Some(Runtime("Too few arguments to " + name)))
      else Handled(st1.(vars := st1.vars[BreakVar := Str(args[0])], flag := TruthyString(args[0])), None)
  }

  /** `executeCallback`: Unhandled when the name is not registered. */
  function ExecuteCallbackSpec(o: Oracle, u: Utilities, cbs: map<string, Callback>, name: string,
                               args: seq<string>, st: State): Handling
  {
    if !IsRegistered(cbs, name) then Unhandled
    else if !IsCallable(u, cbs[name]) then Handled(st, Some(MissingScriptCallback(name)))
    else CallbackSpec(o, u, cbs[name], name, args, st)
  }

  /** How a line is handled: as a callback call, or not (then it runs on the shell). */
  function LineHandling(o: Oracle, u: Utilities, cbs: map<string, Callback>, line: string, st: State): Handling
  {
    match u.extractCallback(line)
    case Some(c) => ExecuteCallbackSpec(o, u, cbs, c.name, c.args, st)
    case None => Unhandled
  }

  datatype LinesOutcome = LinesOutcome(state: State, result: Option<CommandResult>, err: Option<Error>)

  /** The line loop of `runScriptImpl`; `result` is the last shell result so far. */
  function RunLines(o: Oracle, u: Utilities, cbs: map<string, Callback>, lines: seq<string>, st: State,
                    result: Option<CommandResult>): LinesOutcome
    decreases |lines|
  {
    if lines == [] then LinesOutcome(st, result, None)
    else
      var h := LineHandling(o, u, cbs, lines[0], st);
      if h.Handled? then
        if h.err.Some? then LinesOutcome(h.state, result, h.err)
        else RunLines(o, u, cbs, lines[1..], h.state, result)
      else
        var r := o.answer(|st.log|, lines[0]);
        var st1 := st.(log := st.log + [Ran(lines[0])], last := Some(r));
        if r.Failed() && st1.flag then LinesOutcome(st1, Some(r), None)
        else RunLines(o, u, cbs, lines[1..], st1, Some(r))
  }

  /** `runScriptImpl` */
  function ScriptImplSpec(o: Oracle, u: Utilities, root: string, commands: seq<string>,
                          cbs: map<string, Callback>, env: Env, st: State): LinesOutcome
  {
    var st0 := st.(vars := st.vars[BreakVar := Bool(st.flag)], log := st.log + [ChangedDir(root), EnvApplied(env)]);
    match FirstUnresolved(commands)
    case Some(line) => LinesOutcome(st0, None, Some(UnknownReplacementPattern(line)))
    case None =>
      match FirstUnresolved(EnvValues(env))
      case Some(line) => LinesOutcome(st0, None, Some(UnknownReplacementPattern(line)))
      case None => RunLines(o, u, cbs, commands, st0, None)
  }

  /** The input `runScript` prepares from the host configuration and the context variables. */
  datatype Prepared = Prepared(root: Value, commands: seq<string>, env: Env, callbacks: map<string, Callback>)

  function Prepare(u: Utilities, host: map<string, Value>, settings: Value, vars: map<string, Value>): (p: Prepared)
    ensures var repl := u.expandVariables(u.mergeData(VarOr(vars, "variables", List([])),
                                                      Dict(map["host" := Dict(host), "settings" := settings])));
            var raw := Strings(VarOr(vars, "scriptData", List([])));
            |p.commands| == |raw| && forall k :: 0 <= k < |raw| ==> p.commands[k] == u.expand(u.expand(raw[k], repl), repl)
    ensures var repl := u.expandVariables(u.mergeData(VarOr(vars, "variables", List([])),
                                                      Dict(map["host" := Dict(host), "settings" := settings])));
            var env := VarOr(vars, "environment", List([]));
            var raw := u.entries(if !Empty(Lookup(host, "environment")) then u.mergeData(env, host["environment"]) else env);
            |p.env| == |raw| && forall k :: 0 <= k < |raw| ==> p.env[k] == (raw[k].0, u.expand(raw[k].1, repl))
    ensures p.root == VarOr(vars, "rootFolder", DefaultRootFolder(host))
  {
    var commands := Strings(VarOr(vars, "scriptData", List([])));
    var variables := VarOr(vars, "variables", List([]));
    var callbacks := VarOr(vars, "callbacks", List([]));
    var environment := VarOr(vars, "environment", List([]));
    var root := VarOr(vars, "rootFolder", DefaultRootFolder(host));
    var env := if !Empty(Lookup(host, "environment")) then u.mergeData(environment, host["environment"]) else environment;
    var merged := u.mergeData(variables, Dict(map["host" := Dict(host), "settings" := settings]));
    var repl := u.expandVariables(merged);
    Prepared(root, ExpandAll(u, ExpandAll(u, commands, repl), repl), ExpandEnv(u, u.entries(env), repl),
             WithBuiltins(DictEntries(callbacks)))
  }

  datatype ScriptOutcome = ScriptOutcome(state: State, err: Option<Error>)

  /** `runScript` */
  function RunScriptSpec(o: Oracle, u: Utilities, host: map<string, Value>, settings: Value, st: State): ScriptOutcome
  {
    var p := Prepare(u, host, settings, st.vars);
    var st1 := st.(vars := st.vars[HostConfigVar := Dict(host)]);
    match AsStringParameter(p.root)
    case None => ScriptOutcome(st1, Some(Runtime("runScriptImpl(): root folder must be of type string")))
    case Some(root) => Concluded(ScriptImplSpec(o, u, root, p.commands, p.callbacks, p.env, st1))
  }

  /**
   * How `runScript` concludes from the outcome of `runScriptImpl`: an unknown
   * replacement pattern is swallowed, another error is passed on, and otherwise
   * the exit code of the last shell result is recorded (a run without one fails).
   */
  function Concluded(out: LinesOutcome): ScriptOutcome
  {
    if out.err.Some? && out.err.value.UnknownReplacementPattern? then ScriptOutcome(out.state, None)
    else if out.err.Some? then ScriptOutcome(out.state, out.err)
    else if out.result.None? then ScriptOutcome(out.state, Some(Runtime("Call to a member function getExitCode() on null")))
    else ScriptOutcome(out.state.(results := out.state.results[ExitCode := Int(out.result.value.exitCode)]), None)
  }

  /** A non-empty array at `common[type]`: the old, flat layout of common scripts. */
  predicate OldLayout(common: Value, hostType: Value)
  {
    !Empty(Field(common, ToStr(hostType))) && IsArray(Field(common, ToStr(hostType)))
  }

  /** The common script `runTaskSpecificScripts` runs for `task` on a host of `hostType`, if any. */
  function TaskScript(common: Value, task: string, hostType: Value): (r: Option<Value>)
    ensures OldLayout(common, hostType) ==> r.None?
    ensures !OldLayout(common, hostType) ==> (r.Some? <==> !Empty(Field(Field(common, task), ToStr(hostType))))
    ensures r.Some? ==> r.value == Field(Field(common, task), ToStr(hostType))
  {
    if OldLayout(common, hostType) then None
    else
      var script := Field(Field(common, task), ToStr(hostType));
      if !Empty(script) then Some(script) else None
  }

  /** `runTaskSpecificScripts` */
  function TaskScriptsSpec(o: Oracle, u: Utilities, config: map<string, Value>, task: string, common: Value,
                           settings: Value, st: State): ScriptOutcome
  {
    match TaskScript(common, task, Lookup(config, "type"))
    case None => ScriptOutcome(st, None)
    case Some(script) => RunScriptSpec(o, u, config, settings, st.(vars := st.vars["scriptData" := script]))
  }

  // ---------------------------------------------------------------------------
  // The interpreter object.

  class ScriptMethod {
    var breakOnFirstError: bool

    constructor ()
      ensures breakOnFirstError
    {
      breakOnFirstError := true;
    }

    function StateOf(ctx: TaskContext, shell: Shell): State
      reads this, ctx, shell
    {
      State(shell.log, ctx.vars, ctx.results, ctx.commandResult, breakOnFirstError)
    }

    method GetBreakOnFirstError() returns (flag: bool)
      ensures flag == breakOnFirstError
    {
      flag := breakOnFirstError;
    }

    method SetBreakOnFirstError(flag: bool)
      modifies this
      ensures breakOnFirstError == flag
    {
      breakOnFirstError := flag;
    }

    /** `validateReplacements`: the first line still holding a placeholder, if any. */
    method ValidateReplacements(lines: seq<string>) returns (r: Option<string>)
      ensures r == FirstUnresolved(lines)
    {
      var i := 0;
      while i < |lines|
        invariant 0 <= i <= |lines|
        invariant FirstUnresolved(lines[i..]) == FirstUnresolved(lines)
      {
        assert lines[i..][1..] == lines[i + 1..];
        if MatchesPlaceholder(lines[i]) {
          return Some(lines[i]);
        }
        i := i + 1;
      }
      return None;
    }

    /** `handleFailOnErrorCallback`: the raw flag into the context, its truthiness into the object. */
    method HandleFailOnErrorCallback(ctx: TaskContext, flag: string)
      modifies this, ctx`vars
      ensures ctx.vars == old(ctx.vars)[BreakVar := Str(flag)]
      ensures breakOnFirstError == TruthyString(flag)
    {
      ctx.Set(BreakVar, Str(flag));
      SetBreakOnFirstError(TruthyString(flag));
    }

    /** `handleFailOnErrorDeprecatedCallback`: warns, then as `handleFailOnErrorCallback`. */
    method HandleFailOnErrorDeprecatedCallback(ctx: TaskContext, flag: string)
      modifies this, ctx`vars
      ensures ctx.vars == old(ctx.vars)[BreakVar := Str(flag)]
      ensures breakOnFirstError == TruthyString(flag)
    {
      HandleFailOnErrorCallback(ctx, flag);
    }

    /** `handleFailOnMissingDirectoryCallback` */
    method HandleFailOnMissingDirectoryCallback(shell: Shell, dir: string) returns (err: Option<Error>)
      modifies shell`log
      ensures shell.log == old(shell.log) + [Probed(dir)]
      ensures err.None? <==> shell.present(|old(shell.log)|, dir)
      ensures err.Some? ==> err == Some(Runtime("`" + dir + "` . does not exist!"))
    {
      var found := shell.Exists(dir);
      if !found {
        return Some(Runtime("`" + dir + "` . does not exist!"));
      }
      return None;
    }

    /** `executeCallback` */
    method ExecuteCallback(ctx: TaskContext, shell: Shell, u: Utilities, cbs: map<string, Callback>,
                           name: string, args: seq<string>) returns (handled: bool, err: Option<Error>)
      modifies this, ctx`vars, ctx`results, shell`log
      ensures ExecuteCallbackSpec(Oracle(shell.answer, shell.present), u, cbs, name, args, old(StateOf(ctx, shell)))
              == if handled then Handled(StateOf(ctx, shell), err) else Unhandled
      ensures !handled ==> err.None? && StateOf(ctx, shell) == old(StateOf(ctx, shell))
    {
      if !IsRegistered(cbs, name) {
        return false, None;
      }
      var cb := cbs[name];
      if !IsCallable(u, cb) {
        return true, Some(MissingScriptCallback(name));
      }
      shell.RecordCallback(name, args);
      match cb {
        case User(fn) =>
          var c := u.callUser(fn, args, ctx.Snapshot());
          ctx.Restore(c.after);
          return true, c.raised;
        case Builtin(which) =>
          if which == Execute {
            return true, None;
          }
          if args == [] {
            return true, Some(Runtime("Too few arguments to " + name));
          }
          if which == FailOnMissingDirectory {
            err := HandleFailOnMissingDirectoryCallback(shell, args[0]);
            return true, err;
          } else if which == FailOnErrorDeprecated {
            HandleFailOnErrorDeprecatedCallback(ctx, args[0]);
          } else {
            HandleFailOnErrorCallback(ctx, args[0]);
          }
          return true, None;
      }
    }

    /** `runScriptImpl`: enter the root folder, apply the environment, validate, run the lines. */
    method RunScriptImpl(root: string, commands: seq<string>, ctx: TaskContext, cbs: map<string, Callback>,
                         env: Env, shell: Shell, u: Utilities) returns (result: Option<CommandResult>, err: Option<Error>)
      modifies this, ctx`vars, ctx`results, ctx`commandResult, shell`log, shell`workingDir
      ensures LinesOutcome(StateOf(ctx, shell), result, err)
              == ScriptImplSpec(Oracle(shell.answer, shell.present), u, root, commands, cbs, env, old(StateOf(ctx, shell)))
    {
      result := None;
      var flag := GetBreakOnFirstError();
      ctx.Set(BreakVar, Bool(flag));
      shell.Cd(root);
      shell.ApplyEnvironment(env);
      assert shell.log == old(shell.log) + [ChangedDir(root), EnvApplied(env)];
      var bad := ValidateReplacements(commands);
      if bad.Some? {
        return None, Some(UnknownReplacementPattern(bad.value));
      }
      bad := ValidateReplacements(EnvValues(env));
      if bad.Some? {
        return None, Some(UnknownReplacementPattern(bad.value));
      }
      result, err := RunLinesLoop(commands, ctx, cbs, shell, u);
    }

    /** The line loop of `runScriptImpl`. */
    method RunLinesLoop(commands: seq<string>, ctx: TaskContext, cbs: map<string, Callback>, shell: Shell, u: Utilities)
      returns (result: Option<CommandResult>, err: Option<Error>)
      modifies this, ctx`vars, ctx`results, ctx`commandResult, shell`log
      ensures LinesOutcome(StateOf(ctx, shell), result, err)
              == RunLines(Oracle(shell.answer, shell.present), u, cbs, commands, old(StateOf(ctx, shell)), None)
    {
      ghost var o := Oracle(shell.answer, shell.present);
      result := None;
      var i := 0;
      while i < |commands|
        invariant 0 <= i <= |commands|
        invariant RunLines(o, u, cbs, commands[i..], StateOf(ctx, shell), result)
               == RunLines(o, u, cbs, commands, old(StateOf(ctx, shell)), None)
      {
        assert commands[i..][1..] == commands[i + 1..];
        var line := commands[i];
        var handled := false;
        var call := u.extractCallback(line);
        if call.Some? {
          handled, err := ExecuteCallback(ctx, shell, u, cbs, call.value.name, call.value.args);
          if err.Some? {
            return;
          }
        }
        if !handled {
          var r := shell.Run(line);
          ctx.SetCommandResult(r);
          result := Some(r);
          var flag := GetBreakOnFirstError();
          if r.Failed() && flag {
            return result, None;
          }
        }
        i := i + 1;
      }
      return result, None;
    }

    /** `runScript`: prepare the input, run it, and record the exit code. */
    method RunScript(host: map<string, Value>, settings: Value, ctx: TaskContext, shell: Shell, u: Utilities)
      returns (err: Option<Error>)
      modifies this, ctx`vars, ctx`results, ctx`commandResult, shell`log, shell`workingDir
      ensures ScriptOutcome(StateOf(ctx, shell), err)
              == RunScriptSpec(Oracle(shell.answer, shell.present), u, host, settings, old(StateOf(ctx, shell)))
    {
      ghost var o := Oracle(shell.answer, shell.present);
      ghost var st := StateOf(ctx, shell);
      var p := Prepare(u, host, settings, ctx.vars);
      ctx.Set(HostConfigVar, Dict(host));
      ghost var st1 := st.(vars := st.vars[HostConfigVar := Dict(host)]);
      assert StateOf(ctx, shell) == st1;
      var root := AsStringParameter(p.root);
      if root.None? {
        return Some(Runtime("runScriptImpl(): root folder must be of type string"));
      }
      assert RunScriptSpec(o, u, host, settings, st) == Concluded(ScriptImplSpec(o, u, root.value, p.commands, p.callbacks, p.env, st1));
      var result;
      result, err := RunScriptImpl(root.value, p.commands, ctx, p.callbacks, p.env, shell, u);
      ghost var out := LinesOutcome(StateOf(ctx, shell), result, err);
      assert RunScriptSpec(o, u, host, settings, st) == Concluded(out);
      if err.Some? && err.value.UnknownReplacementPattern? {
        return None;
      }
      if err.Some? {
        return;
      }
      if result.None? {
        return Some(Runtime("Call to a member function getExitCode() on null"));
      }
      ctx.SetResult(ExitCode, Int(result.value.exitCode));
      return None;
    }

    /** `runTaskSpecificScripts` */
    method RunTaskSpecificScripts(config: map<string, Value>, task: string, common: Value, settings: Value,
                                  ctx: TaskContext, shell: Shell, u: Utilities) returns (err: Option<Error>)
      modifies this, ctx`vars, ctx`results, ctx`commandResult, shell`log, shell`workingDir
      ensures ScriptOutcome(StateOf(ctx, shell), err)
              == TaskScriptsSpec(Oracle(shell.answer, shell.present), u, config, task, common, settings, old(StateOf(ctx, shell)))
    {
      var script := TaskScript(common, task, Lookup(config, "type"));
      if script.None? {
        return None;
      }
      ctx.Set("scriptData", script.value);
      err := RunScript(config, settings, ctx, shell, u);
    }

    /** `fallback`: the common scripts of the task itself. */
    method Fallback(task: string, config: map<string, Value>, common: Value, settings: Value,
                    ctx: TaskContext, shell: Shell, u: Utilities) returns (err: Option<Error>)
      modifies this, ctx`vars, ctx`results, ctx`commandResult, shell`log, shell`workingDir
      ensures ScriptOutcome(StateOf(ctx, shell), err)
              == TaskScriptsSpec(Oracle(shell.answer, shell.present), u, config, task, common, settings, old(StateOf(ctx, shell)))
    {
      err := RunTaskSpecificScripts(config, task, common, settings, ctx, shell, u);
    }

    /** `preflightTask`: the common scripts of `<task>Prepare`. */
    method PreflightTask(task: string, config: map<string, Value>, common: Value, settings: Value,
                         ctx: TaskContext, shell: Shell, u: Utilities) returns (err: Option<Error>)
      modifies this, ctx`vars, ctx`results, ctx`commandResult, shell`log, shell`workingDir
      ensures ScriptOutcome(StateOf(ctx, shell), err)
              == TaskScriptsSpec(Oracle(shell.answer, shell.present), u, config, task + "Prepare", common, settings,
                                 old(StateOf(ctx, shell)))
    {
      err := RunTaskSpecificScripts(config, task + "Prepare", common, settings, ctx, shell, u);
    }

    /** `postflightTask`: the common scripts of `<task>Finished`. */
    method PostflightTask(task: string, config: map<string, Value>, common: Value, settings: Value,
                          ctx: TaskContext, shell: Shell, u: Utilities) returns (err: Option<Error>)
      modifies this, ctx`vars, ctx`results, ctx`commandResult, shell`log, shell`workingDir
      ensures ScriptOutcome(StateOf(ctx, shell), err)
              == TaskScriptsSpec(Oracle(shell.answer, shell.present), u, config, task + "Finished", common, settings,
                                 old(StateOf(ctx, shell)))
    {
      err := RunTaskSpecificScripts(config, task + "Finished", common, settings, ctx, shell, u);
    }
  }
}
