/**
 * ComposerCommand (`composer`): passes its arguments, joined by spaces, to the
 * `composer` task as the context variable `command`, runs the task, and maps
 * an early task exit to 1 and a completed run to the `exitCode` result.
 */
module ComposerCommand {
  import opened Common
  import opened Context
  import opened Dispatch
  import opened BaseOptionsCommand

  const Task := "composer"
  const CommandVar := "command"

  /** `implode(' ', $arguments)` */
  function CommandLine(args: seq<string>): string
  {
    Join(args, " ")
  }

  /** Splitting a string at every occurrence of `c` (`explode`). */
  function Split(s: string, c: char): (r: seq<string>)
    ensures |r| > 0
  {
    if s == [] then [""]
    else
      var rest := Split(s[1..], c);
      if s[0] == c then [""] + rest else [[s[0]] + rest[0]] + rest[1..]
  }

  lemma {:induction false} SplitPlain(a: string, c: char)
    requires forall k :: 0 <= k < |a| ==> a[k] != c
    ensures Split(a, c) == [a]
  {
    if a != [] {
      SplitPlain(a[1..], c);
      assert [a[0]] + a[1..] == a;
    }
  }

  lemma {:induction false} SplitAfter(a: string, c: char, b: string)
    requires forall k :: 0 <= k < |a| ==> a[k] != c
    ensures Split(a + [c] + b, c) == [a] + Split(b, c)
  {
    if a == [] {
      assert a + [c] + b == [c] + b;
      assert ([c] + b)[1..] == b;
    } else {
      SplitAfter(a[1..], c, b);
      var s := a + [c] + b;
      assert s[0] == a[0] && s[1..] == a[1..] + [c] + b;
      assert [a[0]] + a[1..] == a;
    }
  }

  /** The task can recover the arguments from `command`, as long as no argument contains a space. */
  lemma {:induction false} CommandLineSplits(args: seq<string>)
    requires |args| > 0
    requires forall i, k :: 0 <= i < |args| && 0 <= k < |args[i]| ==> args[i][k] != ' '
    ensures Split(CommandLine(args), ' ') == args
  {
    if |args| == 1 {
      SplitPlain(args[0], ' ');
    } else {
      CommandLineSplits(args[1..]);
      assert args[0] + " " + Join(args[1..], " ") == args[0] + [' '] + Join(args[1..], " ");
      SplitAfter(args[0], ' ', Join(args[1..], " "));
      assert [args[0]] + args[1..] == args;
    }
  }

  /** The context the task runs on: a fresh one holding only the command line. */
  function CommandContext(args: seq<string>): (c: Ctx)
    ensures c.vars.Keys == {CommandVar} && c.results == map[]
  {
    Ctx(map[CommandVar := Str(CommandLine(args))], map[])
  }

  /** The command's effect on the dispatcher and what it ends with. */
  datatype Run = Run(cache: map<string, Handler>, calls: seq<Invocation>, exit: Exit)

  /** The exception and results of the task, mapped to the command's ending. */
  function Ending(o: Outcome): (r: Exit)
    ensures o.err == Some(EarlyTaskExit) ==> r == Returned(Int(1))
    ensures o.err.Some? && o.err != Some(EarlyTaskExit) ==> r == Raised(o.err.value)
    ensures o.err.None? && ExitCode !in o.world.ctx.results ==> r == Returned(Int(0))
    ensures o.err.None? && ExitCode in o.world.ctx.results ==> r == Returned(o.world.ctx.results[ExitCode])
  {
    match o.err
    case Some(EarlyTaskExit) => Returned(Int(1))
    case Some(e) => Raised(e)
    case None => Returned(ResultOr(o.world.ctx.results, ExitCode, Int(0)))
  }

  /**
   * `execute`: a truthy result of the base command is returned before any task
   * runs; otherwise `composer` runs on a fresh context holding `command`.
   */
  function ExecuteSpec(e: Engine, parent: Value, args: seq<string>, needs: seq<string>,
                       cache: map<string, Handler>, calls: seq<Invocation>, fuel: nat): Run
  {
    if !Empty(parent) then Run(cache, calls, Returned(parent))
    else
      var o := RunTaskSpec(e, Task, needs, [], World(cache, calls, CommandContext(args)), fuel);
      Run(o.world.cache, o.world.calls, Ending(o))
  }

  /** A failing base command is returned as is and no handler is called. */
  lemma ParentFailureReturned(e: Engine, parent: Value, args: seq<string>, needs: seq<string>,
                              cache: map<string, Handler>, calls: seq<Invocation>, fuel: nat)
    requires !Empty(parent)
    ensures var r := ExecuteSpec(e, parent, args, needs, cache, calls, fuel);
            r.calls == calls && r.cache == cache && r.exit == Returned(parent)
  {
  }

  /** The command never raises an early task exit: that exception becomes 1. */
  lemma EarlyExitNeverEscapes(e: Engine, parent: Value, args: seq<string>, needs: seq<string>,
                              cache: map<string, Handler>, calls: seq<Invocation>, fuel: nat)
    ensures ExecuteSpec(e, parent, args, needs, cache, calls, fuel).exit != Raised(EarlyTaskExit)
  {
  }

  method Execute(factory: MethodFactory, parent: Value, args: seq<string>, needs: seq<string>, fuel: nat)
    returns (exit: Exit)
    modifies factory`lookupCache, factory`calls
    ensures Run(factory.lookupCache, factory.calls, exit) ==
            ExecuteSpec(factory.Setup(), parent, args, needs, old(factory.lookupCache), old(factory.calls), fuel)
  {
    if !Empty(parent) {
      return Returned(parent);
    }
    var context := new TaskContext(map[]);
    context.Set(CommandVar, Str(CommandLine(args)));
    var err := factory.RunTask(Task, needs, context, [], fuel);
    if err == Some(EarlyTaskExit) {
      return Returned(Int(1));
    } else if err.Some? {
      return Raised(err.value);
    }
    exit := Returned(context.GetResult(ExitCode, Int(0)));
  }
}
