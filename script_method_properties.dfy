/**
 * What the script interpreter promises, proved about its specification
 * functions: shell lines run in order and the run stops at the first failure
 * exactly when `breakOnFirstError` is on; a callback line either calls the
 * registered callback (and runs nothing on the shell), raises for a
 * non-callable entry, or runs on the shell when nothing is registered; only the
 * flag callbacks change the flag; an unresolved placeholder stops the run
 * before any line and is swallowed by `runScript`; the exit code recorded is
 * that of the shell line the run ended on.
 */
module ScriptProperties {
  import opened Common
  import opened Context
  import opened ShellProvider
  import opened Scripts

  /** A line that runs on the shell: not a callback call, or a call of an unregistered name. */
  predicate IsShellLine(u: Utilities, cbs: map<string, Callback>, line: string)
  {
    match u.extractCallback(line)
    case None => true
    case Some(c) => !IsRegistered(cbs, c.name)
  }

  /** A line calling one of the callbacks that set `breakOnFirstError`. */
  predicate SetsFlag(u: Utilities, cbs: map<string, Callback>, line: string)
  {
    match u.extractCallback(line)
    case None => false
    case Some(c) =>
      IsRegistered(cbs, c.name) &&
      (cbs[c.name] == Builtin(FailOnErrorDeprecated) || cbs[c.name] == Builtin(BreakOnFirstError))
  }

  /** The first line, counting log positions from `base`, whose shell answer is a failure. */
  function FirstFailure(o: Oracle, base: nat, lines: seq<string>): Option<nat>
    decreases |lines|
  {
    if lines == [] then None
    else if o.answer(base, lines[0]).Failed() then Some(0)
    else
      var r := FirstFailure(o, base + 1, lines[1..]);
      if r.Some? then Some(r.value + 1) else None
  }

  /** FirstFailure finds the first failing line, and None means that no line fails. */
  lemma {:induction false} FirstFailureIsFirst(o: Oracle, base: nat, lines: seq<string>)
    ensures var r := FirstFailure(o, base, lines);
            r.Some? ==> r.value < |lines| && o.answer(base + r.value, lines[r.value]).Failed() &&
                        forall k :: 0 <= k < r.value ==> !o.answer(base + k, lines[k]).Failed()
    ensures FirstFailure(o, base, lines).None? ==> forall k :: 0 <= k < |lines| ==> !o.answer(base + k, lines[k]).Failed()
    decreases |lines|
  {
    if lines != [] && !o.answer(base, lines[0]).Failed() {
      FirstFailureIsFirst(o, base + 1, lines[1..]);
      assert forall k :: 1 <= k < |lines| ==> lines[k] == lines[1..][k - 1];
    }
  }

  lemma RanOpsStep(log: seq<Op>, lines: seq<string>)
    requires lines != []
    ensures (log + [Ran(lines[0])]) + RanOps(lines[1..]) == log + RanOps(lines)
  {
    assert lines == [lines[0]] + lines[1..];
    RanOpsCons(lines[0], lines[1..]);
  }

  predicate AllShellLines(u: Utilities, cbs: map<string, Callback>, lines: seq<string>)
  {
    forall k :: 0 <= k < |lines| ==> IsShellLine(u, cbs, lines[k])
  }

  /** The first line of a script of shell lines runs on the shell. */
  lemma ShellLineStep(o: Oracle, u: Utilities, cbs: map<string, Callback>,
                      lines: seq<string>, st: State, result: Option<CommandResult>)
    requires lines != [] && AllShellLines(u, cbs, lines)
    ensures AllShellLines(u, cbs, lines[1..])
    ensures var r := o.answer(|st.log|, lines[0]);
            var st1 := st.(log := st.log + [Ran(lines[0])], last := Some(r));
            RunLines(o, u, cbs, lines, st, result) ==
              if r.Failed() && st.flag then LinesOutcome(st1, Some(r), None)
              else RunLines(o, u, cbs, lines[1..], st1, Some(r))
  {
    assert IsShellLine(u, cbs, lines[0]);
    assert forall k :: 0 <= k < |lines[1..]| ==> lines[1..][k] == lines[k + 1];
  }

  /** A shell line that does not stop the run hands over to the rest of the lines. */
  lemma ShellLineContinues(o: Oracle, u: Utilities, cbs: map<string, Callback>,
                           lines: seq<string>, st: State, result: Option<CommandResult>)
    requires lines != [] && AllShellLines(u, cbs, lines)
    requires !(o.answer(|st.log|, lines[0]).Failed() && st.flag)
    ensures AllShellLines(u, cbs, lines[1..])
    ensures var r := o.answer(|st.log|, lines[0]);
            RunLines(o, u, cbs, lines, st, result) ==
              RunLines(o, u, cbs, lines[1..], st.(log := st.log + [Ran(lines[0])], last := Some(r)), Some(r))
  {
    ShellLineStep(o, u, cbs, lines, st, result);
  }

  /** Shell lines raise nothing and leave the flag and the variables alone. */
  lemma {:induction false} ShellLinesRaiseNothing(o: Oracle, u: Utilities, cbs: map<string, Callback>,
                                                  lines: seq<string>, st: State, result: Option<CommandResult>)
    requires AllShellLines(u, cbs, lines)
    ensures var out := RunLines(o, u, cbs, lines, st, result);
            out.err.None? && out.state.flag == st.flag && out.state.vars == st.vars
    decreases |lines|
  {
    if lines != [] {
      ShellLineStep(o, u, cbs, lines, st, result);
      var r := o.answer(|st.log|, lines[0]);
      if !(r.Failed() && st.flag) {
        ShellLinesRaiseNothing(o, u, cbs, lines[1..], st.(log := st.log + [Ran(lines[0])], last := Some(r)), Some(r));
      }
    }
  }

  /** A failing shell line ends the run when `breakOnFirstError` is on. */
  lemma ShellLineStops(o: Oracle, u: Utilities, cbs: map<string, Callback>,
                       lines: seq<string>, st: State, result: Option<CommandResult>)
    requires lines != [] && AllShellLines(u, cbs, lines)
    requires o.answer(|st.log|, lines[0]).Failed() && st.flag
    ensures var r := o.answer(|st.log|, lines[0]);
            RunLines(o, u, cbs, lines, st, result) ==
              LinesOutcome(st.(log := st.log + [Ran(lines[0])], last := Some(r)), Some(r), None)
  {
    ShellLineStep(o, u, cbs, lines, st, result);
  }

  /** Where the first failure is, one line further on. */
  lemma FirstFailureStep(o: Oracle, base: nat, lines: seq<string>)
    requires lines != [] && !o.answer(base, lines[0]).Failed()
    ensures FirstFailure(o, base, lines).Some? <==> FirstFailure(o, base + 1, lines[1..]).Some?
    ensures FirstFailure(o, base, lines).Some? ==>
              FirstFailure(o, base, lines).value == FirstFailure(o, base + 1, lines[1..]).value + 1
  {
  }

  lemma RanOpsPrefixStep(log: seq<Op>, lines: seq<string>, k: nat)
    requires k + 2 <= |lines|
    ensures (log + [Ran(lines[0])]) + RanOps(lines[1..][..k + 1]) == log + RanOps(lines[..k + 2])
  {
    assert lines[..k + 2] == [lines[0]] + lines[1..][..k + 1];
    RanOpsCons(lines[0], lines[1..][..k + 1]);
  }

  /**
   * With `breakOnFirstError` on, a script of shell lines ends at the first
   * failing line: exactly the lines up to it have run.
   */
  lemma {:induction false} ShellLinesStopAtFirstFailure(o: Oracle, u: Utilities, cbs: map<string, Callback>,
                                                        lines: seq<string>, st: State, result: Option<CommandResult>)
    requires AllShellLines(u, cbs, lines) && st.flag
    requires FirstFailure(o, |st.log|, lines).Some?
    ensures var k := FirstFailure(o, |st.log|, lines).value;
            k < |lines| &&
            RunLines(o, u, cbs, lines, st, result).state.log == st.log + RanOps(lines[..k + 1])
    decreases |lines|
  {
    var r := o.answer(|st.log|, lines[0]);
    var st1 := st.(log := st.log + [Ran(lines[0])], last := Some(r));
    if r.Failed() {
      ShellLineStops(o, u, cbs, lines, st, result);
      assert lines[..1] == [lines[0]];
      assert RanOps(lines[..1]) == [Ran(lines[0])];
    } else {
      ShellLineContinues(o, u, cbs, lines, st, result);
      FirstFailureStep(o, |st.log|, lines);
      ShellLinesStopAtFirstFailure(o, u, cbs, lines[1..], st1, Some(r));
      RanOpsPrefixStep(st.log, lines, FirstFailure(o, |st1.log|, lines[1..]).value);
    }
  }

  /**
   * With `breakOnFirstError` on, a script of shell lines that has a failing
   * line returns the result of the first one.
   */
  lemma {:induction false} ShellLinesEndOnFirstFailure(o: Oracle, u: Utilities, cbs: map<string, Callback>,
                                                       lines: seq<string>, st: State, result: Option<CommandResult>)
    requires AllShellLines(u, cbs, lines) && st.flag
    requires FirstFailure(o, |st.log|, lines).Some?
    ensures var k := FirstFailure(o, |st.log|, lines).value;
            k < |lines| &&
            RunLines(o, u, cbs, lines, st, result).result == Some(o.answer(|st.log| + k, lines[k]))
    decreases |lines|
  {
    var r := o.answer(|st.log|, lines[0]);
    var st1 := st.(log := st.log + [Ran(lines[0])], last := Some(r));
    if r.Failed() {
      ShellLineStops(o, u, cbs, lines, st, result);
    } else {
      ShellLineContinues(o, u, cbs, lines, st, result);
      FirstFailureStep(o, |st.log|, lines);
      ShellLinesEndOnFirstFailure(o, u, cbs, lines[1..], st1, Some(r));
      var k' := FirstFailure(o, |st1.log|, lines[1..]).value;
      assert lines[1..][k'] == lines[k' + 1];
    }
  }

  /**
   * Without a failure that stops it, a script of shell lines runs every line,
   * in order.
   */
  lemma {:induction false} ShellLinesRunAll(o: Oracle, u: Utilities, cbs: map<string, Callback>,
                                            lines: seq<string>, st: State, result: Option<CommandResult>)
    requires AllShellLines(u, cbs, lines)
    requires !st.flag || FirstFailure(o, |st.log|, lines).None?
    ensures RunLines(o, u, cbs, lines, st, result).state.log == st.log + RanOps(lines)
    decreases |lines|
  {
    if lines != [] {
      var r := o.answer(|st.log|, lines[0]);
      var st1 := st.(log := st.log + [Ran(lines[0])], last := Some(r));
      assert st.flag ==> !r.Failed() && FirstFailure(o, |st1.log|, lines[1..]).None?;
      ShellLineContinues(o, u, cbs, lines, st, result);
      ShellLinesRunAll(o, u, cbs, lines[1..], st1, Some(r));
      RanOpsStep(st.log, lines);
    }
  }

  /**
   * Without a failure that stops it, the result of a script of shell lines is
   * the last line's (the incoming one when there are none).
   */
  lemma {:induction false} ShellLinesEndOnLast(o: Oracle, u: Utilities, cbs: map<string, Callback>,
                                               lines: seq<string>, st: State, result: Option<CommandResult>)
    requires AllShellLines(u, cbs, lines)
    requires !st.flag || FirstFailure(o, |st.log|, lines).None?
    ensures RunLines(o, u, cbs, lines, st, result).result ==
            if lines == [] then result else Some(o.answer(|st.log| + |lines| - 1, lines[|lines| - 1]))
    decreases |lines|
  {
    if lines != [] {
      var r := o.answer(|st.log|, lines[0]);
      var st1 := st.(log := st.log + [Ran(lines[0])], last := Some(r));
      assert st.flag ==> !r.Failed() && FirstFailure(o, |st1.log|, lines[1..]).None?;
      ShellLineContinues(o, u, cbs, lines, st, result);
      ShellLinesEndOnLast(o, u, cbs, lines[1..], st1, Some(r));
      if |lines| > 1 {
        assert lines[1..][|lines[1..]| - 1] == lines[|lines| - 1];
      }
    }
  }

  /** Only the two flag callbacks change `breakOnFirstError` during a run. */
  lemma {:induction false} FlagKeptWithoutFlagCallbacks(o: Oracle, u: Utilities, cbs: map<string, Callback>,
                                                        lines: seq<string>, st: State, result: Option<CommandResult>)
    requires forall k :: 0 <= k < |lines| ==> !SetsFlag(u, cbs, lines[k])
    ensures RunLines(o, u, cbs, lines, st, result).state.flag == st.flag
    decreases |lines|
  {
    if lines != [] {
      assert !SetsFlag(u, cbs, lines[0]);
      forall k | 0 <= k < |lines[1..]|
        ensures !SetsFlag(u, cbs, lines[1..][k])
      {
        assert lines[1..][k] == lines[k + 1];
      }
      var h := LineHandling(o, u, cbs, lines[0], st);
      if h.Handled? {
        assert h.state.flag == st.flag;
        if h.err.None? {
          FlagKeptWithoutFlagCallbacks(o, u, cbs, lines[1..], h.state, result);
        }
      } else {
        var r := o.answer(|st.log|, lines[0]);
        var st1 := st.(log := st.log + [Ran(lines[0])], last := Some(r));
        FlagKeptWithoutFlagCallbacks(o, u, cbs, lines[1..], st1, Some(r));
      }
    }
  }

  /** A run only appends to the shell log. */
  lemma {:induction false} RunLinesExtendsLog(o: Oracle, u: Utilities, cbs: map<string, Callback>,
                                             lines: seq<string>, st: State, result: Option<CommandResult>)
    ensures st.log <= RunLines(o, u, cbs, lines, st, result).state.log
    decreases |lines|
  {
    if lines != [] {
      var h := LineHandling(o, u, cbs, lines[0], st);
      if h.Handled? {
        if h.err.None? {
          RunLinesExtendsLog(o, u, cbs, lines[1..], h.state, result);
        }
      } else {
        var r := o.answer(|st.log|, lines[0]);
        var st1 := st.(log := st.log + [Ran(lines[0])], last := Some(r));
        RunLinesExtendsLog(o, u, cbs, lines[1..], st1, Some(r));
      }
    }
  }

  /**
   * Callback dispatch of one line: a registered, callable name is called and
   * the line does not run on the shell; a registered but non-callable entry
   * raises MissingScriptCallback before anything happens; an unregistered name
   * runs the line on the shell.
   */
  lemma CallbackLineDispatch(o: Oracle, u: Utilities, cbs: map<string, Callback>, line: string, rest: seq<string>,
                             st: State, result: Option<CommandResult>)
    requires u.extractCallback(line).Some?
    ensures var c := u.extractCallback(line).value;
            var out := RunLines(o, u, cbs, [line] + rest, st, result);
            IsRegistered(cbs, c.name) && IsCallable(u, cbs[c.name]) ==>
              |out.state.log| > |st.log| && out.state.log[|st.log|] == Invoked(c.name, c.args)
    ensures var c := u.extractCallback(line).value;
            var out := RunLines(o, u, cbs, [line] + rest, st, result);
            IsRegistered(cbs, c.name) && !IsCallable(u, cbs[c.name]) ==>
              out == LinesOutcome(st, result, Some(MissingScriptCallback(c.name)))
    ensures var c := u.extractCallback(line).value;
            var out := RunLines(o, u, cbs, [line] + rest, st, result);
            !IsRegistered(cbs, c.name) ==>
              |out.state.log| > |st.log| && out.state.log[|st.log|] == Ran(line)
  {
    var c := u.extractCallback(line).value;
    var lines := [line] + rest;
    assert lines[0] == line && lines[1..] == rest;
    var h := LineHandling(o, u, cbs, line, st);
    if h.Handled? && h.err.None? {
      RunLinesExtendsLog(o, u, cbs, rest, h.state, result);
    } else if h.Unhandled? {
      var r := o.answer(|st.log|, line);
      var st1 := st.(log := st.log + [Ran(line)], last := Some(r));
      RunLinesExtendsLog(o, u, cbs, rest, st1, Some(r));
    }
  }

  /**
   * `runScriptImpl` with a placeholder left in a command or an environment
   * value: after changing into the root folder and applying the environment it
   * raises UnknownReplacementPattern, before running any line.
   */
  lemma ScriptImplStopsOnUnresolved(o: Oracle, u: Utilities, root: string, commands: seq<string>,
                                    cbs: map<string, Callback>, env: Env, st: State)
    requires (exists k :: 0 <= k < |commands| && HasPlaceholder(commands[k])) ||
             (exists k :: 0 <= k < |env| && HasPlaceholder(env[k].1))
    ensures var out := ScriptImplSpec(o, u, root, commands, cbs, env, st);
            out.err.Some? && out.err.value.UnknownReplacementPattern? && out.result.None? &&
            out.state == st.(vars := st.vars[BreakVar := Bool(st.flag)], log := st.log + [ChangedDir(root), EnvApplied(env)])
  {
    if FirstUnresolved(commands).None? {
      var k :| 0 <= k < |env| && HasPlaceholder(env[k].1);
      assert EnvValues(env)[k] == env[k].1;
    }
  }

  /**
   * `runScript` with a placeholder left in a command or an environment value:
   * the exception is swallowed, no command runs, and no exit code is recorded.
   */
  lemma UnresolvedPlaceholderRunsNothing(o: Oracle, u: Utilities, host: map<string, Value>, settings: Value, st: State)
    requires var p := Prepare(u, host, settings, st.vars);
             AsStringParameter(p.root).Some? &&
             ((exists k :: 0 <= k < |p.commands| && HasPlaceholder(p.commands[k])) ||
              (exists k :: 0 <= k < |p.env| && HasPlaceholder(p.env[k].1)))
    ensures var p := Prepare(u, host, settings, st.vars);
            var out := RunScriptSpec(o, u, host, settings, st);
            out.err.None? && out.state.results == st.results &&
            out.state.log == st.log + [ChangedDir(AsStringParameter(p.root).value), EnvApplied(p.env)] &&
            Commands(out.state.log) == Commands(st.log)
  {
    var p := Prepare(u, host, settings, st.vars);
    var root := AsStringParameter(p.root).value;
    var st1 := st.(vars := st.vars[HostConfigVar := Dict(host)]);
    ScriptImplStopsOnUnresolved(o, u, root, p.commands, p.callbacks, p.env, st1);
    assert RunScriptSpec(o, u, host, settings, st) == Concluded(ScriptImplSpec(o, u, root, p.commands, p.callbacks, p.env, st1));
    SetupRunsNoCommand(st.log, root, p.env);
  }

  lemma SetupRunsNoCommand(log: seq<Op>, root: string, env: Env)
    ensures Commands(log + [ChangedDir(root), EnvApplied(env)]) == Commands(log)
  {
    CommandsAppend(log, [ChangedDir(root), EnvApplied(env)]);
    assert [ChangedDir(root), EnvApplied(env)][1..] == [EnvApplied(env)];
    assert Commands([EnvApplied(env)]) == [] by {
      assert [EnvApplied(env)][1..] == [];
    }
  }

  /**
   * The result a script of shell lines ends with: that of the first failing
   * line when `breakOnFirstError` is on, and of the last line otherwise; None
   * when there are no lines.
   */
  lemma ShellLinesResult(o: Oracle, u: Utilities, cbs: map<string, Callback>, lines: seq<string>, st: State, base: nat)
    requires AllShellLines(u, cbs, lines) && base == |st.log|
    ensures var out := RunLines(o, u, cbs, lines, st, None);
            var f := FirstFailure(o, base, lines);
            var k := if st.flag && f.Some? then f.value else |lines| - 1;
            out.err.None? && (out.result.Some? <==> lines != []) &&
            (lines != [] ==> 0 <= k < |lines| && out.result == Some(o.answer(base + k, lines[k])))
  {
    ShellLinesRaiseNothing(o, u, cbs, lines, st, None);
    if st.flag && FirstFailure(o, |st.log|, lines).Some? {
      ShellLinesEndOnFirstFailure(o, u, cbs, lines, st, None);
    } else {
      ShellLinesEndOnLast(o, u, cbs, lines, st, None);
    }
  }

  /** Nothing left to expand, in the commands or in the environment values. */
  lemma NothingUnresolved(commands: seq<string>, env: Env)
    requires (forall k :: 0 <= k < |commands| ==> !HasPlaceholder(commands[k])) &&
             (forall k :: 0 <= k < |env| ==> !HasPlaceholder(env[k].1))
    ensures FirstUnresolved(commands).None? && FirstUnresolved(EnvValues(env)).None?
  {
    assert forall k :: 0 <= k < |env| ==> EnvValues(env)[k] == env[k].1;
  }

  /**
   * `runScriptImpl` of shell lines with nothing left to expand, as
   * `runScript` concludes it: it fails (on the exit code of a null result) iff
   * there are no lines, and otherwise records the exit code of the line the
   * run ended on.
   */
  lemma ConcludedShellRun(o: Oracle, u: Utilities, root: string, commands: seq<string>,
                          cbs: map<string, Callback>, env: Env, st: State, base: nat)
    requires AllShellLines(u, cbs, commands) && base == |st.log| + 2
    requires FirstUnresolved(commands).None? && FirstUnresolved(EnvValues(env)).None?
    ensures Concluded(ScriptImplSpec(o, u, root, commands, cbs, env, st)).err.None? <==> commands != []
    ensures var r := Concluded(ScriptImplSpec(o, u, root, commands, cbs, env, st));
            var f := FirstFailure(o, base, commands);
            var k := if st.flag && f.Some? then f.value else |commands| - 1;
            commands != [] ==>
              0 <= k < |commands| && ExitCode in r.state.results &&
              r.state.results[ExitCode] == Int(o.answer(base + k, commands[k]).exitCode)
  {
    var st0 := st.(vars := st.vars[BreakVar := Bool(st.flag)], log := st.log + [ChangedDir(root), EnvApplied(env)]);
    assert ScriptImplSpec(o, u, root, commands, cbs, env, st) == RunLines(o, u, cbs, commands, st0, None);
    ShellLinesResult(o, u, cbs, commands, st0, base);
  }

  /** `runScript` of shell lines with nothing left to expand fails (on the exit code of a null result) iff there are no lines. */
  lemma RunScriptFailsIffNoLines(o: Oracle, u: Utilities, host: map<string, Value>, settings: Value, st: State)
    requires var p := Prepare(u, host, settings, st.vars);
             AsStringParameter(p.root).Some? && AllShellLines(u, p.callbacks, p.commands) &&
             (forall k :: 0 <= k < |p.commands| ==> !HasPlaceholder(p.commands[k])) &&
             (forall k :: 0 <= k < |p.env| ==> !HasPlaceholder(p.env[k].1))
    ensures RunScriptSpec(o, u, host, settings, st).err.None? <==> Prepare(u, host, settings, st.vars).commands != []
  {
    var p := Prepare(u, host, settings, st.vars);
    var st1 := st.(vars := st.vars[HostConfigVar := Dict(host)]);
    NothingUnresolved(p.commands, p.env);
    ConcludedShellRun(o, u, AsStringParameter(p.root).value, p.commands, p.callbacks, p.env, st1, |st.log| + 2);
  }
}
